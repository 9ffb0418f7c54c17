/** The room filter of both scripts: `check_arrangement`, `get_monthly_price`
    and `filter_room`. Each decision looks at one room record and the user's
    preferences; an exception a field can raise is an `Err`. */
module RoomFilter {
  import opened PyValues
  import opened Listings

  /** Average number of weeks in a month, as both scripts assume. */
  const WeeksPerMonth: real := 4.33

  // ---------------------------------------------------------------------------
  // check_arrangement

  /** `check_arrangement(room, key)`: None when the field is absent or falsy,
      otherwise whether its lowered text contains "private". `.lower()` raises
      on a truthy value that is not a string. */
  function CheckArrangement(arrangement: Option<Value>): Result<Option<bool>> {
    if arrangement.None? || !Truthy(arrangement.value) then Ok(None)
    else match arrangement.value
      case PyStr(s) => Ok(Some(Contains(Lower(s), "private")))
      case other => Err(AttributeError(TypeName(other), "lower"))
  }

  /** The arrangement text says "private" in any mix of upper and lower case. */
  ghost predicate SaysPrivate(arrangement: Option<Value>) {
    arrangement.Some? && arrangement.value.PyStr? && MentionsAnyCase(arrangement.value.s, "private")
  }

  lemma CheckArrangementMeaning(arrangement: Option<Value>)
    ensures CheckArrangement(arrangement) == Ok(None) <==> arrangement.None? || !Truthy(arrangement.value)
    ensures CheckArrangement(arrangement) == Ok(Some(true)) <==> SaysPrivate(arrangement)
    ensures CheckArrangement(arrangement).Err? <==>
              arrangement.Some? && Truthy(arrangement.value) && !arrangement.value.PyStr?
  {
    if arrangement.Some? && arrangement.value.PyStr? {
      ContainsLowerIsAnyCase(arrangement.value.s, "private");
    }
  }

  // ---------------------------------------------------------------------------
  // get_monthly_price

  /** `if x: try float(x) except ValueError`: the number a truthy field
      converts to, None when it is falsy or `float()` rejects it. */
  function Numeric(field: Option<Value>): (r: Option<real>)
    ensures r.Some? ==> field.Some? && Truthy(field.value) && ToFloat(field.value) == Ok(r.value)
    ensures r.None? ==> field.None? || !Truthy(field.value) || ToFloat(field.value).Err?
  {
    if field.Some? && Truthy(field.value) && ToFloat(field.value).Ok? then Some(ToFloat(field.value).value)
    else None
  }

  /** The lowered price label, when the label is a non-empty string. */
  function LoweredLabel(room: Room): Option<string> {
    if room.priceLabel.Some? && room.priceLabel.value.PyStr? && room.priceLabel.value.s != "" then
      Some(Lower(room.priceLabel.value.s))
    else None
  }

  /** The nightly rule of main.py: nightly price x 7 x 4.33, None if unusable. */
  function NightlyEstimate(room: Room): Option<real> {
    match Numeric(room.minPricePerNight)
    case None => None
    case Some(p) => Some(p * 7.0 * WeeksPerMonth)
  }

  /** main.py `get_monthly_price`: a "month" label with a usable billing-cycle
      price gives that price, else a "week" label gives it x 4.33, else the
      nightly rule. `.lower()` raises on a truthy label that is not a string. */
  function MainMonthlyPrice(room: Room): Result<Option<real>> {
    var shown := room.priceLabel;
    if shown.Some? && Truthy(shown.value) then
      match shown.value
      case PyStr(s) =>
        var billing := Numeric(room.minPriceForBillingCycle);
        if Contains(Lower(s), "month") && billing.Some? then Ok(billing)
        else if !Contains(Lower(s), "month") && Contains(Lower(s), "week") && billing.Some? then
          Ok(Some(billing.value * WeeksPerMonth))
        else Ok(NightlyEstimate(room))
      case other => Err(AttributeError(TypeName(other), "lower"))
    else Ok(NightlyEstimate(room))
  }

  /** The pricing rules of main.py, one ensures per rule, in the order the code tries them. */
  lemma MainMonthlyPriceRules(room: Room)
    ensures MainMonthlyPrice(room).Err? <==>
              room.priceLabel.Some? && Truthy(room.priceLabel.value) && !room.priceLabel.value.PyStr?
    ensures LoweredLabel(room).Some? && Contains(LoweredLabel(room).value, "month")
              && Numeric(room.minPriceForBillingCycle).Some? ==>
              MainMonthlyPrice(room) == Ok(Numeric(room.minPriceForBillingCycle))
    ensures LoweredLabel(room).Some? && !Contains(LoweredLabel(room).value, "month")
              && Contains(LoweredLabel(room).value, "week")
              && Numeric(room.minPriceForBillingCycle).Some? ==>
              MainMonthlyPrice(room) == Ok(Some(Numeric(room.minPriceForBillingCycle).value * WeeksPerMonth))
    ensures MainMonthlyPrice(room).Ok? && Numeric(room.minPriceForBillingCycle).None?
              && Numeric(room.minPricePerNight).Some? ==>
              MainMonthlyPrice(room) == Ok(Some(Numeric(room.minPricePerNight).value * 7.0 * WeeksPerMonth))
    ensures MainMonthlyPrice(room).Ok? && (LoweredLabel(room).None? ||
              !(Contains(LoweredLabel(room).value, "month") || Contains(LoweredLabel(room).value, "week"))) ==>
              MainMonthlyPrice(room) == Ok(NightlyEstimate(room))
    ensures MainMonthlyPrice(room) == Ok(None) <==>
              MainMonthlyPrice(room).Ok? && NightlyEstimate(room).None? &&
              !(LoweredLabel(room).Some? && Numeric(room.minPriceForBillingCycle).Some? &&
                (Contains(LoweredLabel(room).value, "month") || Contains(LoweredLabel(room).value, "week")))
  {
  }

  /** yugo_api_scraper.py `get_monthly_price(p)`: a nightly price over a month. */
  function YugoMonthlyPrice(pricePerNight: real): real {
    pricePerNight * 7.0 * WeeksPerMonth
  }

  /** A nightly price stays under a monthly cap exactly when it is at most
      cap / 30.31, the nightly price that a month of nights at 4.33 weeks comes to. */
  lemma YugoCapAsNightlyPrice(pricePerNight: real, cap: real)
    ensures YugoMonthlyPrice(pricePerNight) <= cap <==> pricePerNight <= cap / 30.31
    ensures YugoMonthlyPrice(pricePerNight) == pricePerNight * 30.31
  {
  }

  // ---------------------------------------------------------------------------
  // filter_room

  /** `soldOut` is present and equal to False (0 and 0.0 included). */
  predicate NotSoldOut(room: Room) {
    room.soldOut.Some? && EqualsFalse(room.soldOut.value)
  }

  /** One arrangement check: with the preference in force, the room stays only
      when `check_arrangement` answers True. */
  function ArrangementAllowed(wanted: Option<bool>, arrangement: Option<Value>): Result<bool> {
    if Wants(wanted) then
      var isPrivate :- CheckArrangement(arrangement);
      Ok(isPrivate == Some(true))
    else Ok(true)
  }

  /** The price check, which is where the two scripts differ. */
  function PriceAllowed(v: Variant, prefs: Preferences, room: Room): Result<bool> {
    if !IsSet(prefs.maxPrice) then Ok(true)
    else
      var cap := prefs.maxPrice.value;
      match v
      case MainScript =>
        var monthly :- MainMonthlyPrice(room);
        Ok(!(monthly.None? || monthly.value == 0.0 || monthly.value > cap))
      case YugoScript =>
        if room.minPricePerNight.Some? && Truthy(room.minPricePerNight.value) then
          var nightly :- ToFloat(room.minPricePerNight.value);
          Ok(!(YugoMonthlyPrice(nightly) > cap))
        else Ok(false)
  }

  /** `filter_room(room, my_options)`: whether the room is kept, or the
      exception a field of the room raises. Sold out first, then bathroom,
      kitchen and price, each only when its preference is in force. */
  function FilterRoom(v: Variant, prefs: Preferences, room: Room): (r: Result<bool>)
    ensures !NotSoldOut(room) ==> r == Ok(false)
    ensures !Wants(prefs.privateBathroom) && !Wants(prefs.privateKitchen) && !IsSet(prefs.maxPrice) ==>
              r == Ok(NotSoldOut(room))
  {
    if !NotSoldOut(room) then Ok(false)
    else
      var bathroom :- ArrangementAllowed(prefs.privateBathroom, room.bathroomArrangement);
      if !bathroom then Ok(false)
      else
        var kitchen :- ArrangementAllowed(prefs.privateKitchen, room.kitchenArrangement);
        if !kitchen then Ok(false)
        else PriceAllowed(v, prefs, room)
  }

  /** The monthly cap admits the room: main.py needs a derived, non-zero
      monthly price at most the cap; yugo_api_scraper.py needs a truthy nightly
      price that converts and whose month stays at most the cap. */
  ghost predicate WithinCap(v: Variant, room: Room, cap: real) {
    match v
    case MainScript =>
      MainMonthlyPrice(room).Ok? && MainMonthlyPrice(room).value.Some? &&
      MainMonthlyPrice(room).value.value != 0.0 && MainMonthlyPrice(room).value.value <= cap
    case YugoScript =>
      Numeric(room.minPricePerNight).Some? && YugoMonthlyPrice(Numeric(room.minPricePerNight).value) <= cap
  }

  /** What it takes for a room to be kept, stated per preference. */
  ghost predicate Admits(v: Variant, prefs: Preferences, room: Room) {
    NotSoldOut(room)
    && (Wants(prefs.privateBathroom) ==> SaysPrivate(room.bathroomArrangement))
    && (Wants(prefs.privateKitchen) ==> SaysPrivate(room.kitchenArrangement))
    && (IsSet(prefs.maxPrice) ==> WithinCap(v, room, prefs.maxPrice.value))
  }

  lemma ArrangementAllowedMeaning(wanted: Option<bool>, arrangement: Option<Value>)
    ensures ArrangementAllowed(wanted, arrangement) == Ok(true) <==> (Wants(wanted) ==> SaysPrivate(arrangement))
    ensures ArrangementAllowed(wanted, arrangement).Err? ==> Wants(wanted)
  {
    CheckArrangementMeaning(arrangement);
  }

  /** A room is kept exactly when every preference in force admits it. */
  lemma FilterRoomAdmits(v: Variant, prefs: Preferences, room: Room)
    ensures FilterRoom(v, prefs, room) == Ok(true) <==> Admits(v, prefs, room)
  {
    ArrangementAllowedMeaning(prefs.privateBathroom, room.bathroomArrangement);
    ArrangementAllowedMeaning(prefs.privateKitchen, room.kitchenArrangement);
  }

  /** The cap is inclusive: a derived monthly price equal to the cap passes,
      one cent above it does not. */
  lemma CapBoundary(room: Room, cap: real)
    requires cap != 0.0 && NotSoldOut(room)
    requires room.priceLabel == None && room.minPricePerNight.Some? && room.minPricePerNight.value.PyFloat?
    ensures var prefs := Preferences(None, None, Some(cap), None, None);
            var month := room.minPricePerNight.value.x * 7.0 * WeeksPerMonth;
            month == cap ==>
              (FilterRoom(MainScript, prefs, room) == Ok(true) && FilterRoom(YugoScript, prefs, room) == Ok(true))
    ensures var prefs := Preferences(None, None, Some(cap), None, None);
            var month := room.minPricePerNight.value.x * 7.0 * WeeksPerMonth;
            month == cap + 0.01 ==>
              (FilterRoom(MainScript, prefs, room) == Ok(false) && FilterRoom(YugoScript, prefs, room) == Ok(false))
  {
  }

  /** Preferences `strict` ask at least as much as `loose`: every arrangement
      loose wants, strict wants, and strict's cap is in force and no higher
      whenever loose's is. */
  predicate Stricter(strict: Preferences, loose: Preferences) {
    (Wants(loose.privateBathroom) ==> Wants(strict.privateBathroom))
    && (Wants(loose.privateKitchen) ==> Wants(strict.privateKitchen))
    && (IsSet(loose.maxPrice) ==> IsSet(strict.maxPrice) && strict.maxPrice.value <= loose.maxPrice.value)
  }

  /** Adding a constraint can only shrink the set of kept rooms. */
  lemma FilterRoomMonotone(v: Variant, strict: Preferences, loose: Preferences, room: Room)
    requires Stricter(strict, loose)
    requires FilterRoom(v, strict, room) == Ok(true)
    ensures FilterRoom(v, loose, room) == Ok(true)
  {
    FilterRoomAdmits(v, strict, room);
    FilterRoomAdmits(v, loose, room);
  }

  /** A non-numeric nightly price: main.py degrades it to "no price" and
      drops the room, yugo_api_scraper.py lets float() raise out of filter_room. */
  lemma NonNumericNightlyPrice(room: Room, prefs: Preferences)
    requires NotSoldOut(room) && !Wants(prefs.privateBathroom) && !Wants(prefs.privateKitchen)
    requires IsSet(prefs.maxPrice) && room.priceLabel == None
    requires room.minPricePerNight.Some? && room.minPricePerNight.value.PyStr?
    requires room.minPricePerNight.value.s != "" && ParseDecimal(room.minPricePerNight.value.s) == None
    ensures FilterRoom(MainScript, prefs, room) == Ok(false)
    ensures FilterRoom(YugoScript, prefs, room).Err? && FilterRoom(YugoScript, prefs, room).error.ValueError?
  {
  }

  /** Worked case: a weekly label with a billing-cycle price of 100 is 433 a month. */
  lemma WeeklyExample()
    ensures MainMonthlyPrice(Room(None, None, None, None, None, Some(PyStr("Weekly")), Some(PyInt(100)), None,
                                  None, NullBody)) == Ok(Some(433.0))
  {
    assert Lower("Weekly") == "weekly";
    assert "weekly"[1..] == "eekly" && "eekly"[1..] == "ekly";
    assert "weekly"[..5][0] != "month"[0] && "eekly"[..5][0] != "month"[0];
    assert !Contains("ekly", "month");
    assert !Contains("weekly", "month");
    assert "weekly"[..4] == "week";
  }

  /** Worked case: a monthly label with a billing-cycle price of 1500 is 1500. */
  lemma MonthlyExample()
    ensures MainMonthlyPrice(Room(None, None, None, None, None, Some(PyStr("Monthly")), Some(PyInt(1500)), None,
                                  None, NullBody)) == Ok(Some(1500.0))
  {
    assert Lower("Monthly") == "monthly";
    assert "monthly"[..5] == "month";
  }

  /** Worked case: a nightly price of 20 and no label is 606.2 a month in both scripts. */
  lemma NightlyExample()
    ensures MainMonthlyPrice(Room(None, None, None, None, None, None, None, Some(PyInt(20)),
                                  None, NullBody)) == Ok(Some(606.2))
    ensures YugoMonthlyPrice(20.0) == 606.2
  {
  }

  /** Worked case: main.py's cap is a float. A nightly price of 20 (606.2 a
      month) is kept under a cap of 606.5 and dropped under 606.1. */
  lemma FractionalCapExample()
    ensures var room := Room(None, None, Some(PyBool(false)), None, None, None, None, Some(PyInt(20)), None, NullBody);
            FilterRoom(MainScript, Preferences(None, None, Some(606.5), None, None), room) == Ok(true)
            && FilterRoom(MainScript, Preferences(None, None, Some(606.1), None, None), room) == Ok(false)
  {
  }

  /** Worked case: "Private en-suite" counts as private, "Shared" does not. */
  lemma ArrangementExamples()
    ensures CheckArrangement(Some(PyStr("Private en-suite"))) == Ok(Some(true))
    ensures CheckArrangement(Some(PyStr("Shared"))) == Ok(Some(false))
  {
    assert Lower("Private en-suite")[..7] == "private";
    assert |"shared"| < |"private"|;
  }
}
