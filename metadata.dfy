/** The metadata snapshot: five catalog tables, each reduced by `.values(...)`
    to a fixed set of fields. */
module Metadata {
  import opened Common

  // Catalog rows as the storage layer holds them (the id is the only field
  // beyond the projected ones that this model keeps).
  datatype Category = Category(id: int, title: string, description: string)
  datatype ListingType = ListingType(id: int, title: string, description: string)
  datatype Agency = Agency(id: int, title: string, shortName: string, iconUrl: string)
  datatype ContactType = ContactType(id: int, name: string, required: bool)
  datatype Intent = Intent(id: int, action: string, mediaType: string, labelText: string, icon: string)

  // The projected rows: exactly the fields named in each `.values(...)` call.
  datatype CategoryValues = CategoryValues(title: string, description: string)
  datatype ListingTypeValues = ListingTypeValues(title: string, description: string)
  datatype AgencyValues = AgencyValues(title: string, shortName: string, iconUrl: string)
  datatype ContactTypeValues = ContactTypeValues(name: string, required: bool)
  datatype IntentValues = IntentValues(action: string, mediaType: string, labelText: string, icon: string)

  /** The cached metadata dictionary. */
  datatype Snapshot = Snapshot(
    categories: seq<CategoryValues>,
    listingTypes: seq<ListingTypeValues>,
    agencies: seq<AgencyValues>,
    contactTypes: seq<ContactTypeValues>,
    intents: seq<IntentValues>)

  /** What the storage layer answers for each of the five `.all()` queries. */
  datatype Catalog = Catalog(
    categories: Query<seq<Category>>,
    listingTypes: Query<seq<ListingType>>,
    agencies: Query<seq<Agency>>,
    contactTypes: Query<seq<ContactType>>,
    intents: Query<seq<Intent>>)

  /** `Category.objects.all().values('title', 'description')`: one row per
      category, in the same order, carrying its title and description. */
  function CategoryValuesOf(rows: seq<Category>): (r: seq<CategoryValues>)
    ensures |r| == |rows|
    ensures forall i :: 0 <= i < |rows| ==> r[i].title == rows[i].title && r[i].description == rows[i].description
  {
    if rows == [] then []
    else [CategoryValues(rows[0].title, rows[0].description)] + CategoryValuesOf(rows[1..])
  }

  /** `ListingType.objects.all().values('title', 'description')`. */
  function ListingTypeValuesOf(rows: seq<ListingType>): (r: seq<ListingTypeValues>)
    ensures |r| == |rows|
    ensures forall i :: 0 <= i < |rows| ==> r[i].title == rows[i].title && r[i].description == rows[i].description
  {
    if rows == [] then []
    else [ListingTypeValues(rows[0].title, rows[0].description)] + ListingTypeValuesOf(rows[1..])
  }

  /** `Agency.objects.all().values('title', 'short_name', 'icon_url')`. */
  function AgencyValuesOf(rows: seq<Agency>): (r: seq<AgencyValues>)
    ensures |r| == |rows|
    ensures forall i :: 0 <= i < |rows| ==>
              r[i].title == rows[i].title && r[i].shortName == rows[i].shortName && r[i].iconUrl == rows[i].iconUrl
  {
    if rows == [] then []
    else [AgencyValues(rows[0].title, rows[0].shortName, rows[0].iconUrl)] + AgencyValuesOf(rows[1..])
  }

  /** `ContactType.objects.all().values('name', 'required')`. */
  function ContactTypeValuesOf(rows: seq<ContactType>): (r: seq<ContactTypeValues>)
    ensures |r| == |rows|
    ensures forall i :: 0 <= i < |rows| ==> r[i].name == rows[i].name && r[i].required == rows[i].required
  {
    if rows == [] then []
    else [ContactTypeValues(rows[0].name, rows[0].required)] + ContactTypeValuesOf(rows[1..])
  }

  /** `Intent.objects.all().values('action', 'media_type', 'label', 'icon')`. */
  function IntentValuesOf(rows: seq<Intent>): (r: seq<IntentValues>)
    ensures |r| == |rows|
    ensures forall i :: 0 <= i < |rows| ==>
              && r[i].action == rows[i].action && r[i].mediaType == rows[i].mediaType
              && r[i].labelText == rows[i].labelText && r[i].icon == rows[i].icon
  {
    if rows == [] then []
    else [IntentValues(rows[0].action, rows[0].mediaType, rows[0].labelText, rows[0].icon)] + IntentValuesOf(rows[1..])
  }

  /** The snapshot assembled on a cache miss, or the first fault met when the
      five tables are read in the order categories, listing types, agencies,
      contact types, intents. */
  function AssembleSnapshot(c: Catalog): (r: Query<Snapshot>)
    ensures r.Answer? <==>
              c.categories.Answer? && c.listingTypes.Answer? && c.agencies.Answer?
              && c.contactTypes.Answer? && c.intents.Answer?
    ensures r.Answer? ==>
              && |r.value.categories| == |c.categories.value|
              && |r.value.listingTypes| == |c.listingTypes.value|
              && |r.value.agencies| == |c.agencies.value|
              && |r.value.contactTypes| == |c.contactTypes.value|
              && |r.value.intents| == |c.intents.value|
    ensures r.Fault? ==>
              || (c.categories.Fault? && r.detail == c.categories.detail)
              || (c.categories.Answer? && c.listingTypes.Fault? && r.detail == c.listingTypes.detail)
              || (c.categories.Answer? && c.listingTypes.Answer? && c.agencies.Fault?
                  && r.detail == c.agencies.detail)
              || (c.categories.Answer? && c.listingTypes.Answer? && c.agencies.Answer?
                  && c.contactTypes.Fault? && r.detail == c.contactTypes.detail)
              || (c.categories.Answer? && c.listingTypes.Answer? && c.agencies.Answer?
                  && c.contactTypes.Answer? && c.intents.Fault? && r.detail == c.intents.detail)
  {
    if c.categories.Fault? then Fault(c.categories.detail)
    else if c.listingTypes.Fault? then Fault(c.listingTypes.detail)
    else if c.agencies.Fault? then Fault(c.agencies.detail)
    else if c.contactTypes.Fault? then Fault(c.contactTypes.detail)
    else if c.intents.Fault? then Fault(c.intents.detail)
    else Answer(Snapshot(
      CategoryValuesOf(c.categories.value),
      ListingTypeValuesOf(c.listingTypes.value),
      AgencyValuesOf(c.agencies.value),
      ContactTypeValuesOf(c.contactTypes.value),
      IntentValuesOf(c.intents.value)))
  }
}
