/** The listings the scraper walks (city -> residence -> room -> tenancy option),
    as a snapshot of what each GET would return, and the user's preferences. */
module Listings {
  import opened PyValues

  /** What `requests.get(url).json()` produced for a collection endpoint: it
      raised, it decoded to None, it decoded to a mapping without the expected
      collection key, or the key held this list of records. */
  datatype Response<+T> =
    | Raised(message: string)
    | NullBody
    | KeyMissing
    | Items(items: seq<T>)

  /** One entry of a tenancy option's "tenancyOption" list. A field the JSON
      lacks is None. */
  datatype OptionData = OptionData(name: Option<Value>, formattedLabel: Option<Value>)

  /** A tenancy option: a bookable date range of a room. */
  datatype Tenancy = Tenancy(
    fromYear: Option<Value>,
    toYear: Option<Value>,
    tenancyOption: Option<seq<OptionData>>)

  /** A room record, plus the response its tenancy-options GET would return. */
  datatype Room = Room(
    id: Option<Value>,
    name: Option<Value>,
    soldOut: Option<Value>,
    bathroomArrangement: Option<Value>,
    kitchenArrangement: Option<Value>,
    priceLabel: Option<Value>,
    minPriceForBillingCycle: Option<Value>,
    minPricePerNight: Option<Value>,
    roomArrangemets: Option<Value>,   // the key main.py interpolates, spelled as it spells it
    options: Response<Tenancy>)

  /** A residence record, plus the response its rooms GET would return. */
  datatype Residence = Residence(
    id: Option<Value>,
    contentId: Option<Value>,
    name: Option<Value>,
    rooms: Response<Room>)

  /** The options dictionary `set_options` builds: yes/no answers for the
      arrangements, and positive numbers for the price cap and the years. main.py
      reads these with `float(input())`, so a cap such as 999.5 is possible;
      yugo_api_scraper.py reads them with `int(input())`, whose values are the
      integral reals here. A key the user did not fill is None. */
  datatype Preferences = Preferences(
    privateBathroom: Option<bool>,
    privateKitchen: Option<bool>,
    maxPrice: Option<real>,
    fromYear: Option<real>,
    toYear: Option<real>)

  /** The two scripts sharing this pipeline: main.py and yugo_api_scraper.py. */
  datatype Variant = MainScript | YugoScript

  /** A yes/no preference is in force when it is truthy. */
  predicate Wants(flag: Option<bool>) {
    flag == Some(true)
  }

  /** A numeric preference is in force when it is truthy (present and non-zero). */
  predicate IsSet(n: Option<real>) {
    n.Some? && n.value != 0.0
  }

  /** `d[key]`: the field's value, or KeyError when the record lacks it. */
  function Field(field: Option<Value>, key: string): (r: Result<Value>)
    ensures r.Ok? <==> field.Some?
    ensures r.Ok? ==> r.value == field.value
    ensures r.Err? ==> r.error == KeyError(key)
  {
    match field
    case None => Err(KeyError(key))
    case Some(v) => Ok(v)
  }

  /** `option["tenancyOption"][0]`. */
  function FirstOptionData(t: Tenancy): (r: Result<OptionData>)
    ensures r.Ok? <==> t.tenancyOption.Some? && |t.tenancyOption.value| > 0
    ensures r.Ok? ==> r.value == t.tenancyOption.value[0]
    ensures t.tenancyOption.None? ==> r == Err(KeyError("tenancyOption"))
    ensures t.tenancyOption == Some([]) ==> r == Err(IndexError)
  {
    match t.tenancyOption
    case None => Err(KeyError("tenancyOption"))
    case Some(data) => if data == [] then Err(IndexError) else Ok(data[0])
  }
}
