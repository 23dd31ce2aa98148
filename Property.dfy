/** The Property entity of the back end: a mutable record of a listing
    whose setters each replace one field. Boxed and reference fields may be
    null (None); the primitive isValid starts false. Persistence annotations
    (identity generation, column defaults, lazy loading) belong to the
    framework and are not modelled. */
module PropertyEntity {
  import opened Wrappers
  import opened JavaTypes

  /** java.time.LocalDateTime, stored but never computed with here. */
  datatype LocalDateTime = LocalDateTime(year: int, month: int, day: int,
                                         hour: int, minute: int, second: int, nano: int)

  /** Enumerations stored by their token (EnumType.STRING). */
  datatype PropertyType = PropertyType(token: string)
  datatype PropertyState = PropertyState(token: string)
  datatype County = County(token: string)

  /** Lifecycle status of a listing. */
  datatype StatusOfProperty = Pending | Accepted | Archived

  /** Reference to the owning user, by the user's identity. */
  datatype UserRef = UserRef(userId: int64)

  /** The whole field set of a Property, as one value. */
  datatype PropertyRecord = PropertyRecord(
    id: Option<int64>,
    name: Option<string>,
    localDateTime: Option<LocalDateTime>,
    numberOfRooms: Option<int32>,
    price: Option<int32>,
    buildingYear: Option<int32>,
    area: Option<real>,
    propertyType: Option<PropertyType>,
    propertyState: Option<PropertyState>,
    county: Option<County>,
    city: Option<string>,
    zipCode: Option<int32>,
    street: Option<string>,
    streetNumber: Option<string>,
    description: Option<string>,
    isValid: bool,
    status: Option<StatusOfProperty>,
    owner: Option<UserRef>,
    lngCoord: Option<real>,
    latCoord: Option<real>,
    imageUrls: Option<seq<string>>,
    publicIds: Option<seq<string>>)

  /** The state of a Property right after `new Property()`: every boxed or
      reference field is null, isValid is false, the two lists are empty. */
  function NewPropertyRecord(): (r: PropertyRecord)
    ensures r.imageUrls == Some([]) && r.publicIds == Some([])
    ensures r.isValid == false
    ensures r.id.None? && r.status.None? && r.owner.None? && r.name.None?
  {
    PropertyRecord(None, None, None, None, None, None, None, None, None, None, None,
                   None, None, None, None, false, None, None, None, None, Some([]), Some([]))
  }

  /** Status and the soft-delete flag are orthogonal: setting one leaves the
      other as it was, and the two updates commute. */
  lemma StatusAndValidityIndependent(r: PropertyRecord, s: Option<StatusOfProperty>, v: bool)
    ensures r.(status := s).isValid == r.isValid
    ensures r.(isValid := v).status == r.status
    ensures r.(status := s).(isValid := v) == r.(isValid := v).(status := s)
  {
  }

  class Property {
    var id: Option<int64>
    var name: Option<string>
    var localDateTime: Option<LocalDateTime>
    var numberOfRooms: Option<int32>
    var price: Option<int32>
    var buildingYear: Option<int32>
    var area: Option<real>
    var propertyType: Option<PropertyType>
    var propertyState: Option<PropertyState>
    var county: Option<County>
    var city: Option<string>
    var zipCode: Option<int32>
    var street: Option<string>
    var streetNumber: Option<string>
    var description: Option<string>
    var isValid: bool
    var status: Option<StatusOfProperty>
    var owner: Option<UserRef>
    var lngCoord: Option<real>
    var latCoord: Option<real>
    var imageUrls: Option<seq<string>>
    var publicIds: Option<seq<string>>

    /** The current field set. */
    function Record(): PropertyRecord
      reads this
    {
      PropertyRecord(id, name, localDateTime, numberOfRooms, price, buildingYear, area,
                     propertyType, propertyState, county, city, zipCode, street, streetNumber,
                     description, isValid, status, owner, lngCoord, latCoord, imageUrls, publicIds)
    }

    constructor ()
      ensures Record() == NewPropertyRecord()
    {
      id := None;
      name := None;
      localDateTime := None;
      numberOfRooms := None;
      price := None;
      buildingYear := None;
      area := None;
      propertyType := None;
      propertyState := None;
      county := None;
      city := None;
      zipCode := None;
      street := None;
      streetNumber := None;
      description := None;
      isValid := false;
      status := None;
      owner := None;
      lngCoord := None;
      latCoord := None;
      imageUrls := Some([]);
      publicIds := Some([]);
    }

    function GetId(): Option<int64>
      reads this
    {
      id
    }

    method SetId(id: Option<int64>)
      modifies this
      ensures Record() == old(Record()).(id := id)
      ensures GetId() == id
    {
      this.id := id;
    }

    function GetName(): Option<string>
      reads this
    {
      name
    }

    method SetName(name: Option<string>)
      modifies this
      ensures Record() == old(Record()).(name := name)
      ensures GetName() == name
    {
      this.name := name;
    }

    function GetNumberOfRooms(): Option<int32>
      reads this
    {
      numberOfRooms
    }

    method SetNumberOfRooms(numberOfRooms: Option<int32>)
      modifies this
      ensures Record() == old(Record()).(numberOfRooms := numberOfRooms)
      ensures GetNumberOfRooms() == numberOfRooms
    {
      this.numberOfRooms := numberOfRooms;
    }

    function GetPrice(): Option<int32>
      reads this
    {
      price
    }

    method SetPrice(price: Option<int32>)
      modifies this
      ensures Record() == old(Record()).(price := price)
      ensures GetPrice() == price
    {
      this.price := price;
    }

    function GetDescription(): Option<string>
      reads this
    {
      description
    }

    method SetDescription(description: Option<string>)
      modifies this
      ensures Record() == old(Record()).(description := description)
      ensures GetDescription() == description
    {
      this.description := description;
    }

    function IsValid(): bool
      reads this
    {
      isValid
    }

    method SetValid(valid: bool)
      modifies this
      ensures Record() == old(Record()).(isValid := valid)
      ensures IsValid() == valid
    {
      isValid := valid;
    }

    function GetImageUrls(): Option<seq<string>>
      reads this
    {
      imageUrls
    }

    method SetImageUrls(imageUrls: Option<seq<string>>)
      modifies this
      ensures Record() == old(Record()).(imageUrls := imageUrls)
      ensures GetImageUrls() == imageUrls
    {
      this.imageUrls := imageUrls;
    }

    function GetBuildingYear(): Option<int32>
      reads this
    {
      buildingYear
    }

    method SetBuildingYear(buildingYear: Option<int32>)
      modifies this
      ensures Record() == old(Record()).(buildingYear := buildingYear)
      ensures GetBuildingYear() == buildingYear
    {
      this.buildingYear := buildingYear;
    }

    function GetArea(): Option<real>
      reads this
    {
      area
    }

    method SetArea(area: Option<real>)
      modifies this
      ensures Record() == old(Record()).(area := area)
      ensures GetArea() == area
    {
      this.area := area;
    }

    function GetPropertyType(): Option<PropertyType>
      reads this
    {
      propertyType
    }

    method SetPropertyType(propertyType: Option<PropertyType>)
      modifies this
      ensures Record() == old(Record()).(propertyType := propertyType)
      ensures GetPropertyType() == propertyType
    {
      this.propertyType := propertyType;
    }

    function GetPropertyState(): Option<PropertyState>
      reads this
    {
      propertyState
    }

    method SetPropertyState(propertyState: Option<PropertyState>)
      modifies this
      ensures Record() == old(Record()).(propertyState := propertyState)
      ensures GetPropertyState() == propertyState
    {
      this.propertyState := propertyState;
    }

    function GetCounty(): Option<County>
      reads this
    {
      county
    }

    method SetCounty(county: Option<County>)
      modifies this
      ensures Record() == old(Record()).(county := county)
      ensures GetCounty() == county
    {
      this.county := county;
    }

    function GetCity(): Option<string>
      reads this
    {
      city
    }

    method SetCity(city: Option<string>)
      modifies this
      ensures Record() == old(Record()).(city := city)
      ensures GetCity() == city
    {
      this.city := city;
    }

    function GetZipCode(): Option<int32>
      reads this
    {
      zipCode
    }

    method SetZipCode(zipCode: Option<int32>)
      modifies this
      ensures Record() == old(Record()).(zipCode := zipCode)
      ensures GetZipCode() == zipCode
    {
      this.zipCode := zipCode;
    }

    function GetStreet(): Option<string>
      reads this
    {
      street
    }

    method SetStreet(street: Option<string>)
      modifies this
      ensures Record() == old(Record()).(street := street)
      ensures GetStreet() == street
    {
      this.street := street;
    }

    function GetStreetNumber(): Option<string>
      reads this
    {
      streetNumber
    }

    method SetStreetNumber(streetNumber: Option<string>)
      modifies this
      ensures Record() == old(Record()).(streetNumber := streetNumber)
      ensures GetStreetNumber() == streetNumber
    {
      this.streetNumber := streetNumber;
    }

    function GetPublicIds(): Option<seq<string>>
      reads this
    {
      publicIds
    }

    method SetPublicIds(publicIds: Option<seq<string>>)
      modifies this
      ensures Record() == old(Record()).(publicIds := publicIds)
      ensures GetPublicIds() == publicIds
    {
      this.publicIds := publicIds;
    }

    function GetLocalDateTime(): Option<LocalDateTime>
      reads this
    {
      localDateTime
    }

    method SetLocalDateTime(localDateTime: Option<LocalDateTime>)
      modifies this
      ensures Record() == old(Record()).(localDateTime := localDateTime)
      ensures GetLocalDateTime() == localDateTime
    {
      this.localDateTime := localDateTime;
    }

    function GetOwner(): Option<UserRef>
      reads this
    {
      owner
    }

    method SetOwner(owner: Option<UserRef>)
      modifies this
      ensures Record() == old(Record()).(owner := owner)
      ensures GetOwner() == owner
    {
      this.owner := owner;
    }

    function GetLngCoord(): Option<real>
      reads this
    {
      lngCoord
    }

    method SetLngCoord(lngCoord: Option<real>)
      modifies this
      ensures Record() == old(Record()).(lngCoord := lngCoord)
      ensures GetLngCoord() == lngCoord
    {
      this.lngCoord := lngCoord;
    }

    function GetLatCoord(): Option<real>
      reads this
    {
      latCoord
    }

    method SetLatCoord(latCoord: Option<real>)
      modifies this
      ensures Record() == old(Record()).(latCoord := latCoord)
      ensures GetLatCoord() == latCoord
    {
      this.latCoord := latCoord;
    }

    function GetStatus(): Option<StatusOfProperty>
      reads this
    {
      status
    }

    method SetStatus(status: Option<StatusOfProperty>)
      modifies this
      ensures Record() == old(Record()).(status := status)
      ensures GetStatus() == status
    {
      this.status := status;
    }
  }
}
