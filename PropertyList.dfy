/** The listing page of the web front end (PropertyListComponent): the
    filter form with its defaults, the filter bar that is switched on and
    off, and the paged listing. HTTP requests, local storage and router
    navigation are outside the model; the data an HTTP response delivers
    arrives through the callback methods On... instead. */
module PropertyList {
  import opened Wrappers
  import Paging

  /** Labels of the button that opens and closes the filter bar. */
  const FilterOnMessage: string := "Szűrni szeretnék"
  const FilterOffMessage: string := "Szűrés kikapcsolása"

  /** The label shown while the filter bar is open (true) or closed (false). */
  function FilterBarMessage(open: bool): string
  {
    if open then FilterOffMessage else FilterOnMessage
  }

  /** The label names the state of the bar unambiguously. */
  lemma FilterBarMessageDistinct(open1: bool, open2: bool)
    ensures FilterBarMessage(open1) == FilterBarMessage(open2) <==> open1 == open2
  {
  }

  /** Values of the controls of the filter form; null is None. */
  datatype FilterForm = FilterForm(
    minPrice: Option<int>,
    maxPrice: Option<int>,
    minSize: Option<int>,
    maxSize: Option<int>,
    propertyState: Option<string>,
    propertyType: Option<string>,
    city: Option<string>,
    numberOfRooms: Option<int>)

  /** The form as built by the constructor and by clearFilterFields. */
  function DefaultFilterForm(): (f: FilterForm)
    ensures f.minPrice == Some(0) && f.minSize == Some(0) && f.numberOfRooms == Some(2)
    ensures f.maxPrice.None? && f.maxSize.None?
    ensures f.propertyState.None? && f.propertyType.None? && f.city.None?
  {
    FilterForm(Some(0), None, Some(0), None, None, None, None, Some(2))
  }

  /** The part of the component that makeFilterBar switches: whether the
      filter bar is shown, and the label of its button (undefined until
      ngOnInit sets it). */
  datatype FilterBar = FilterBar(open: bool, message: Option<string>)

  /** makeFilterBar on the filter bar state. */
  function Toggled(b: FilterBar): FilterBar
  {
    if b.open == false then FilterBar(true, Some(FilterOffMessage))
    else FilterBar(false, Some(FilterOnMessage))
  }

  /** A label that agrees with the state of the bar. */
  predicate Labelled(b: FilterBar)
  {
    b.message == Some(FilterBarMessage(b.open))
  }

  /** One toggle flips the bar and always leaves a label that agrees with it. */
  lemma ToggledFlips(b: FilterBar)
    ensures Toggled(b).open == !b.open
    ensures Labelled(Toggled(b))
  {
  }

  /** Two toggles restore a labelled bar; from the unlabelled state right
      after construction they restore the flag but set the label. */
  lemma ToggledTwice(b: FilterBar)
    ensures Toggled(Toggled(b)).open == b.open
    ensures Labelled(b) ==> Toggled(Toggled(b)) == b
    ensures !Labelled(b) ==> Toggled(Toggled(b)) != b
  {
  }

  class PropertyListComponent<Item> {
    var propertyListItemModels: Option<seq<Item>>
    var actualPageList: Option<seq<seq<Item>>>
    var registratedUser: Option<bool>
    var filteredForm: FilterForm
    var filteredFormDatas: Option<FilterForm>
    var needFilterList: bool
    var filterOpenMessage: Option<string>

    function Bar(): FilterBar
      reads this
    {
      FilterBar(needFilterList, filterOpenMessage)
    }

    /** The constructor builds the default form and closes the filter bar;
        every other field is still undefined. */
    constructor ()
      ensures filteredForm == DefaultFilterForm()
      ensures Bar() == FilterBar(false, None)
      ensures propertyListItemModels.None? && actualPageList.None?
      ensures registratedUser.None? && filteredFormDatas.None?
    {
      propertyListItemModels := None;
      actualPageList := None;
      registratedUser := None;
      filteredForm := FilterForm(Some(0), None, Some(0), None, None, None, None, Some(2));
      filteredFormDatas := None;
      needFilterList := false;
      filterOpenMessage := None;
    }

    /** ngOnInit without its HTTP request: userStored says whether local
        storage holds a user. registratedUser is only ever set to true. */
    method NgOnInit(userStored: bool)
      modifies this
      ensures registratedUser == if userStored then Some(true) else old(registratedUser)
      ensures filterOpenMessage == Some(FilterOnMessage)
      ensures filteredForm == DefaultFilterForm()
      ensures needFilterList == old(needFilterList)
      ensures propertyListItemModels == old(propertyListItemModels)
      ensures actualPageList == old(actualPageList)
      ensures filteredFormDatas == old(filteredFormDatas)
    {
      if userStored {
        registratedUser := Some(true);
      }
      filterOpenMessage := Some(FilterOnMessage);
      ClearFilterFields();
    }

    /** The response of the listing request: the items are stored and paged. */
    method OnPropertyList(items: seq<Item>)
      modifies this
      ensures propertyListItemModels == Some(items)
      ensures actualPageList == Some(Paging.Chunks(items))
      ensures registratedUser == old(registratedUser)
      ensures filteredForm == old(filteredForm) && filteredFormDatas == old(filteredFormDatas)
      ensures Bar() == old(Bar())
    {
      propertyListItemModels := Some(items);
      var pages := Paging.MakingActualList(items);
      actualPageList := Some(pages);
    }

    /** Resets the filter form to the defaults the constructor sets. */
    method ClearFilterFields()
      modifies this
      ensures filteredForm == DefaultFilterForm()
      ensures propertyListItemModels == old(propertyListItemModels)
      ensures actualPageList == old(actualPageList)
      ensures registratedUser == old(registratedUser)
      ensures filteredFormDatas == old(filteredFormDatas)
      ensures Bar() == old(Bar())
    {
      filteredForm := FilterForm(Some(0), None, Some(0), None, None, None, None, Some(2));
    }

    /** filterProperties up to the request: the current form values are
        taken as the filter to send. */
    method FilterProperties()
      modifies this
      ensures filteredFormDatas == Some(filteredForm)
      ensures filteredForm == old(filteredForm)
      ensures propertyListItemModels == old(propertyListItemModels)
      ensures actualPageList == old(actualPageList)
      ensures registratedUser == old(registratedUser)
      ensures Bar() == old(Bar())
    {
      filteredFormDatas := Some(filteredForm);
    }

    /** The response of the filter request replaces the item list only; the
        pages shown are not recomputed. */
    method OnFilteredList(filtered: seq<Item>)
      modifies this
      ensures propertyListItemModels == Some(filtered)
      ensures actualPageList == old(actualPageList)
      ensures registratedUser == old(registratedUser)
      ensures filteredForm == old(filteredForm) && filteredFormDatas == old(filteredFormDatas)
      ensures Bar() == old(Bar())
    {
      propertyListItemModels := Some(filtered);
    }

    /** makeFilterBar without its two HTTP requests: opens a closed filter
        bar and closes an open one, relabelling the button. */
    method MakeFilterBar()
      modifies this
      ensures Bar() == Toggled(old(Bar()))
      ensures needFilterList == !old(needFilterList)
      ensures filterOpenMessage == Some(FilterBarMessage(needFilterList))
      ensures filteredForm == old(filteredForm) && filteredFormDatas == old(filteredFormDatas)
      ensures propertyListItemModels == old(propertyListItemModels)
      ensures actualPageList == old(actualPageList)
      ensures registratedUser == old(registratedUser)
    {
      if needFilterList == false {
        needFilterList := true;
        filterOpenMessage := Some(FilterOffMessage);
      } else {
        needFilterList := false;
        filterOpenMessage := Some(FilterOnMessage);
      }
    }
  }
}
