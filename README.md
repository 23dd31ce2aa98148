# moovsmart core, modelled in Dafny

moovsmart is a real-estate listing web application. Its Java back end keeps
listings as `Property` entities and hands the web layer an
`AuthenticatedUser` built from the security framework's user details. Its
Angular front end shows the listing on a page component that splits the
items into pages of four and offers a filter form and a filter bar that can
be opened and closed.

This project models those three pieces:

- `Paging.dfy` (module `Paging`): the paging loop `makingActualList` as a
  method proved against the pure function `Chunks`, with lemmas for the
  round trip, the page count and the page sizes.
- `PropertyList.dfy` (module `PropertyList`): the component's own state as a
  class. It holds the filter form and its defaults, the filter bar toggle
  with its label, and the item and page lists. HTTP responses arrive
  through callback methods.
- `Property.dfy` (module `PropertyEntity`): the `Property` entity as a class
  with one field per Java field. Each setter states the complete new field
  set through the `Record()` view, so "only this field changes" is part of
  every setter's contract.
- `AuthenticatedUser.dfy` (module `Authentication`): the role extraction
  loop and the principal class with its accessors.
- `Wrappers.dfy` and `JavaTypes.dfy`: `Option` for values that may be null,
  and the 32- and 64-bit integer types of Java.

Modelling choices:

- A Java reference or boxed field, and a TypeScript field or form control
  that may be null or undefined, is an `Option`.
- `Integer` is `int32` and `Long` is `int64`. No arithmetic is done on
  them, so no wrap-around arises.
- `Double` fields are `real` and `LocalDateTime` is a datatype of its
  components. Both are only stored.
- The enumerations `PropertyType`, `PropertyState` and `County` are kept
  by their storage token, because their definitions are not part of this
  model. `StatusOfProperty` is `Pending | Accepted | Archived`.
- The owner is referenced by the owning user's id.

## Model

| member | source | states |
|---|---|---|
| Paging.MakingActualList | moovsmart/src/app/components/property-list/property-list.component.ts:53-76 | the pages built by the loop (sentinel page pushed first and shifted off, trailing page always pushed) are exactly `Chunks(items)`; the listing is a value and is not changed |
| Paging.FlattenChunks | moovsmart/src/app/components/property-list/property-list.component.ts:60-75 | concatenating all pages gives back the listing: same items, same order |
| Paging.ChunksCount | moovsmart/src/app/components/property-list/property-list.component.ts:60-74 | there are `n / 4 + 1` pages, so the result is never empty |
| Paging.ChunksPageAt | moovsmart/src/app/components/property-list/property-list.component.ts:55-74 | page k holds exactly the items at positions `4k` up to `min(4k + 4, n)` |
| Paging.PageSizes | moovsmart/src/app/components/property-list/property-list.component.ts:55-74 | every page but the last has exactly 4 items; the last holds the final `n % 4` items, so it is empty when `n` is a multiple of 4 and `[]` is paged as `[[]]` |
| Paging.ChunksSnoc | moovsmart/src/app/components/property-list/property-list.component.ts:62-70 | one loop step: appending an item extends the last page, and a page that becomes full is followed by a new empty page |
| PropertyList.FilterBarMessageDistinct | moovsmart/src/app/components/property-list/property-list.component.ts:129-150 | the two button labels differ, so the label tells whether the filter bar is open |
| PropertyList.DefaultFilterForm | moovsmart/src/app/components/property-list/property-list.component.ts:99-112 | default form, the same as the constructor's at lines 83-94: minPrice 0, minSize 0, numberOfRooms 2; maxPrice, maxSize, propertyState, propertyType, city null |
| PropertyList.ToggledFlips | moovsmart/src/app/components/property-list/property-list.component.ts:129-150 | one toggle negates `needFilterList` and leaves the label that matches the new state |
| PropertyList.ToggledTwice | moovsmart/src/app/components/property-list/property-list.component.ts:129-150 | two toggles restore the flag; they restore the whole bar exactly when its label already matched (not from the unlabelled state right after construction) |
| PropertyList.PropertyListComponent.constructor | moovsmart/src/app/components/property-list/property-list.component.ts:80-97 | default filter form, filter bar closed, label and all other fields still undefined |
| PropertyList.PropertyListComponent.NgOnInit | moovsmart/src/app/components/property-list/property-list.component.ts:34-41 | sets `registratedUser` to true only when a user is stored (never to false), sets the label to 'Szűrni szeretnék' and resets the form; the filter bar flag and the lists are untouched |
| PropertyList.PropertyListComponent.OnPropertyList | moovsmart/src/app/components/property-list/property-list.component.ts:43-49 | the listing response is stored and its paging `Chunks(items)` becomes the page list; nothing else changes |
| PropertyList.PropertyListComponent.ClearFilterFields | moovsmart/src/app/components/property-list/property-list.component.ts:99-112 | the form equals the constructor's defaults; every other field is unchanged |
| PropertyList.PropertyListComponent.FilterProperties | moovsmart/src/app/components/property-list/property-list.component.ts:118-121 | the current form values become the filter to send; nothing else changes |
| PropertyList.PropertyListComponent.OnFilteredList | moovsmart/src/app/components/property-list/property-list.component.ts:123-127 | the filter response replaces the item list but the page list stays as it was |
| PropertyList.PropertyListComponent.MakeFilterBar | moovsmart/src/app/components/property-list/property-list.component.ts:129-150 | the bar state becomes `Toggled` of the old one: flag negated, label 'Szűrés kikapcsolása' when opened and 'Szűrni szeretnék' when closed; nothing else changes |
| PropertyEntity.NewPropertyRecord | src/main/java/com/progmasters/moovsmart/domain/Property.java:14-61 | a new Property has empty `imageUrls` and `publicIds`, `isValid` false and null id, name, status and owner |
| PropertyEntity.StatusAndValidityIndependent | src/main/java/com/progmasters/moovsmart/domain/Property.java:103-109 | `setValid` against `setStatus` (lines 231-237): setting the status leaves `isValid` alone, setting `isValid` leaves the status alone, and the two updates commute (as the archive test sets them one after the other, src/test/java/com/progmasters/moovsmart/integration/PropertyServiceIT.java:290-292) |
| PropertyEntity.Property.constructor | src/main/java/com/progmasters/moovsmart/domain/Property.java:54-61 | the field set of a fresh object is `NewPropertyRecord()` |
| PropertyEntity.Property.SetId | src/main/java/com/progmasters/moovsmart/domain/Property.java:63-69 | the field set afterwards is the old one with only `id` replaced by the argument; `GetId()` then returns it |
| PropertyEntity.Property.SetName | src/main/java/com/progmasters/moovsmart/domain/Property.java:71-77 | the field set afterwards is the old one with only `name` replaced by the argument; `GetName()` then returns it |
| PropertyEntity.Property.SetNumberOfRooms | src/main/java/com/progmasters/moovsmart/domain/Property.java:79-85 | the field set afterwards is the old one with only `numberOfRooms` replaced by the argument; `GetNumberOfRooms()` then returns it |
| PropertyEntity.Property.SetPrice | src/main/java/com/progmasters/moovsmart/domain/Property.java:87-93 | the field set afterwards is the old one with only `price` replaced by the argument; `GetPrice()` then returns it |
| PropertyEntity.Property.SetDescription | src/main/java/com/progmasters/moovsmart/domain/Property.java:95-101 | the field set afterwards is the old one with only `description` replaced by the argument; `GetDescription()` then returns it |
| PropertyEntity.Property.SetValid | src/main/java/com/progmasters/moovsmart/domain/Property.java:103-109 | the field set afterwards is the old one with only `isValid` replaced by the argument; `IsValid()` then returns it |
| PropertyEntity.Property.SetImageUrls | src/main/java/com/progmasters/moovsmart/domain/Property.java:111-117 | the field set afterwards is the old one with only `imageUrls` replaced by the argument (the whole list is replaced); `GetImageUrls()` then returns it |
| PropertyEntity.Property.SetBuildingYear | src/main/java/com/progmasters/moovsmart/domain/Property.java:119-125 | the field set afterwards is the old one with only `buildingYear` replaced by the argument; `GetBuildingYear()` then returns it |
| PropertyEntity.Property.SetArea | src/main/java/com/progmasters/moovsmart/domain/Property.java:127-133 | the field set afterwards is the old one with only `area` replaced by the argument; `GetArea()` then returns it |
| PropertyEntity.Property.SetPropertyType | src/main/java/com/progmasters/moovsmart/domain/Property.java:135-141 | the field set afterwards is the old one with only `propertyType` replaced by the argument; `GetPropertyType()` then returns it |
| PropertyEntity.Property.SetPropertyState | src/main/java/com/progmasters/moovsmart/domain/Property.java:143-149 | the field set afterwards is the old one with only `propertyState` replaced by the argument; `GetPropertyState()` then returns it |
| PropertyEntity.Property.SetCounty | src/main/java/com/progmasters/moovsmart/domain/Property.java:151-157 | the field set afterwards is the old one with only `county` replaced by the argument; `GetCounty()` then returns it |
| PropertyEntity.Property.SetCity | src/main/java/com/progmasters/moovsmart/domain/Property.java:159-165 | the field set afterwards is the old one with only `city` replaced by the argument; `GetCity()` then returns it |
| PropertyEntity.Property.SetZipCode | src/main/java/com/progmasters/moovsmart/domain/Property.java:167-173 | the field set afterwards is the old one with only `zipCode` replaced by the argument; `GetZipCode()` then returns it |
| PropertyEntity.Property.SetStreet | src/main/java/com/progmasters/moovsmart/domain/Property.java:175-181 | the field set afterwards is the old one with only `street` replaced by the argument; `GetStreet()` then returns it |
| PropertyEntity.Property.SetStreetNumber | src/main/java/com/progmasters/moovsmart/domain/Property.java:183-189 | the field set afterwards is the old one with only `streetNumber` replaced by the argument; `GetStreetNumber()` then returns it |
| PropertyEntity.Property.SetPublicIds | src/main/java/com/progmasters/moovsmart/domain/Property.java:191-197 | the field set afterwards is the old one with only `publicIds` replaced by the argument (the whole list is replaced); `GetPublicIds()` then returns it |
| PropertyEntity.Property.SetLocalDateTime | src/main/java/com/progmasters/moovsmart/domain/Property.java:199-205 | the field set afterwards is the old one with only `localDateTime` replaced by the argument; `GetLocalDateTime()` then returns it |
| PropertyEntity.Property.SetOwner | src/main/java/com/progmasters/moovsmart/domain/Property.java:207-213 | the field set afterwards is the old one with only `owner` replaced by the argument; `GetOwner()` then returns it |
| PropertyEntity.Property.SetLngCoord | src/main/java/com/progmasters/moovsmart/domain/Property.java:215-221 | the field set afterwards is the old one with only `lngCoord` replaced by the argument; `GetLngCoord()` then returns it |
| PropertyEntity.Property.SetLatCoord | src/main/java/com/progmasters/moovsmart/domain/Property.java:223-229 | the field set afterwards is the old one with only `latCoord` replaced by the argument; `GetLatCoord()` then returns it |
| PropertyEntity.Property.SetStatus | src/main/java/com/progmasters/moovsmart/domain/Property.java:231-237 | the field set afterwards is the old one with only `status` replaced by the argument; `GetStatus()` then returns it |
| Authentication.GetAllRoles | src/main/java/com/progmasters/moovsmart/security/AuthenticatedUser.java:20-26 | one role per authority, same length, the i-th role is the i-th authority's string: order and duplicates are kept |
| Authentication.AuthenticatedUser.constructor | src/main/java/com/progmasters/moovsmart/security/AuthenticatedUser.java:15-18 | `role` holds the authority strings of the user's authorities, in order; `userId` is the user's id |
| Authentication.AuthenticatedUser.SetRole | src/main/java/com/progmasters/moovsmart/security/AuthenticatedUser.java:28-34 | `GetRole()` returns the list set; `userId` is unchanged |
| Authentication.AuthenticatedUser.SetUserId | src/main/java/com/progmasters/moovsmart/security/AuthenticatedUser.java:36-42 | `GetUserId()` returns the id set; `role` is unchanged |

## Left out

- The filtering, holding, archive and ownership logic of the back end's
  property service and its repository queries: their source is not part
  of this model.
- The HTTP requests of the listing page, its `localStorage` read (a
  parameter of `NgOnInit`) and its router navigation (`details`). The
  option lists that `makeFilterBar` loads (`propertyTypes`,
  `propertyStates`, `cities`) come from HTTP responses, so they are not
  modelled either.
- The locals `indexBig` and `indexMini` of `makingActualList`: nothing reads
  them, so they do not affect the result.
- `defaultPicture`, `actualPageNumber` and `id` of the component: the shown
  code never reads or assigns them beyond the constant initialiser.
- Paging.MakingActualList: the listing is passed as an immutable sequence.
  The fact that the source only reads the array it is given is therefore
  true by construction, and is not a separate contract.
- Aliasing of the lists. `setImageUrls`, `setPublicIds` and `setRole` store
  the caller's list object, so later mutation of that object would show
  through the getter. The model stores list values.
- Persistence behaviour: the column default of `isValid`, identity
  generation and lazy loading of the owner belong to the persistence
  framework, not to the class.
- The security framework types (`MyUserDetails`, `GrantedAuthority`). They
  are reduced to an id and a sequence of authority strings.
- Floating-point behaviour of `area`, `lngCoord` and `latCoord`. These
  values are only stored.
