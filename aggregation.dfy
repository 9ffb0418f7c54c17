/** The `check_options` pass of both scripts: walk residences -> rooms ->
    tenancy options for one city, fetch a room's tenancy options only when the
    room passes `filter_room`, count every option examined, and append one
    message per option that passes the year filter. Any exception abandons the
    whole pass. The fetched data is a snapshot given as input. */
module Aggregation {
  import opened PyValues
  import opened Listings
  import opened RoomFilter

  /** What the try block has built: `option_count` and `messages`. */
  datatype Batch = Batch(count: nat, messages: string)

  /** One tenancy option in its place in the traversal. */
  datatype Candidate = Candidate(residence: Residence, room: Room, tenancy: Tenancy)

  /** `str(e)` of subscripting a None response. */
  const NoneSubscript: string := "'NoneType' object is not subscriptable"

  /** The year filter: with both years in force, only an exact match of both;
      otherwise every option. */
  predicate YearsSelected(prefs: Preferences, fromYear: Value, toYear: Value) {
    if IsSet(prefs.fromYear) && IsSet(prefs.toYear) then
      EqualsNumber(fromYear, prefs.fromYear.value) && EqualsNumber(toYear, prefs.toYear.value)
    else true
  }

  /** The f-string of one match. main.py:
        "Space: {residence name}\nRoom type: {room name} - {priceLabel}, {roomArrangemets}\n
         Length of stay: {option name}, {formattedLabel}"
      yugo_api_scraper.py:
        "Residence: {residence name}, Room: {room name}, Option: {option name}"
      Fields are read left to right; the first one missing raises KeyError. */
  function Message(v: Variant, residence: Residence, room: Room, data: OptionData): (r: Result<string>)
    ensures r.Err? ==> r.error.KeyError?
    ensures v == MainScript ==>
              (r.Ok? <==> residence.name.Some? && room.name.Some? && room.priceLabel.Some?
                          && room.roomArrangemets.Some? && data.name.Some? && data.formattedLabel.Some?)
    ensures v == YugoScript ==> (r.Ok? <==> residence.name.Some? && room.name.Some? && data.name.Some?)
    ensures r.Ok? ==> |r.value| > 0
  {
    match v
    case MainScript =>
      var space :- Field(residence.name, "name");
      var roomType :- Field(room.name, "name");
      var priceLabel :- Field(room.priceLabel, "priceLabel");
      var arrangements :- Field(room.roomArrangemets, "roomArrangemets");
      var stay :- Field(data.name, "name");
      var formatted :- Field(data.formattedLabel, "formattedLabel");
      Ok("Space: " + Show(space) + "\nRoom type: " + Show(roomType) + " - " + Show(priceLabel) + ", "
         + Show(arrangements) + "\nLength of stay: " + Show(stay) + ", " + Show(formatted))
    case YugoScript =>
      var residenceName :- Field(residence.name, "name");
      var roomName :- Field(room.name, "name");
      var optionName :- Field(data.name, "name");
      Ok("Residence: " + Show(residenceName) + ", Room: " + Show(roomName) + ", Option: " + Show(optionName))
  }

  /** main.py's message word for word, for residence "H", room "R" priced "P"
      with arrangements "A", and option "N" labelled "L". */
  lemma MainMessageExample()
    ensures Message(MainScript, Residence(None, None, Some(PyStr("H")), NullBody),
                    Room(None, Some(PyStr("R")), None, None, None, Some(PyStr("P")), None, None,
                         Some(PyStr("A")), NullBody),
                    OptionData(Some(PyStr("N")), Some(PyStr("L"))))
            == Ok("Space: H\nRoom type: R - P, A\nLength of stay: N, L")
  {
    var head := "Space: " + "H" + "\nRoom type: " + "R";
    assert head == "Space: H\nRoom type: R";
    var priced := head + " - " + "P" + ", " + "A";
    assert priced == "Space: H\nRoom type: R - P, A";
    var stay := priced + "\nLength of stay: " + "N" + ", " + "L";
    assert stay == "Space: H\nRoom type: R - P, A\nLength of stay: N, L";
  }

  /** yugo_api_scraper.py's message word for word, for the same records. */
  lemma YugoMessageExample()
    ensures Message(YugoScript, Residence(None, None, Some(PyStr("H")), NullBody),
                    Room(None, Some(PyStr("R")), None, None, None, Some(PyStr("P")), None, None,
                         Some(PyStr("A")), NullBody),
                    OptionData(Some(PyStr("N")), Some(PyStr("L"))))
            == Ok("Residence: H, Room: R, Option: N")
  {
    assert "Residence: " + "H" + ", Room: " + "R" + ", Option: " + "N" == "Residence: H, Room: R, Option: N";
  }

  /** The body of the innermost loop for one option: read its years and its
      first option data (yugo_api_scraper.py also reads that entry's name right
      away), then the text it appends: its message and a newline when the
      year filter passes, nothing otherwise. */
  function OptionLine(v: Variant, prefs: Preferences, c: Candidate): (r: Result<string>)
    ensures r.Ok? ==> c.tenancy.fromYear.Some? && c.tenancy.toYear.Some? && FirstOptionData(c.tenancy).Ok?
    ensures r.Ok? ==>
              (r.value != "" <==> YearsSelected(prefs, c.tenancy.fromYear.value, c.tenancy.toYear.value))
    ensures r.Ok? && r.value != "" ==>
              Message(v, c.residence, c.room, FirstOptionData(c.tenancy).value).Ok?
              && r.value == Message(v, c.residence, c.room, FirstOptionData(c.tenancy).value).value + "\n"
  {
    var fromYear :- Field(c.tenancy.fromYear, "fromYear");
    var toYear :- Field(c.tenancy.toYear, "toYear");
    var data :- FirstOptionData(c.tenancy);
    var optionName :- if v == YugoScript then Field(data.name, "name") else Ok(PyNone);
    if YearsSelected(prefs, fromYear, toYear) then
      var message :- Message(v, c.residence, c.room, data);
      Ok(message + "\n")
    else Ok("")
  }

  // ---------------------------------------------------------------------------
  // The pass as a fold, loop by loop

  /** The innermost loop over the tenancy options of a kept room. */
  function Tenancies(v: Variant, prefs: Preferences, residence: Residence, room: Room,
                     tenancies: seq<Tenancy>, acc: Batch): Result<Batch>
    decreases |tenancies|
  {
    if tenancies == [] then Ok(acc)
    else
      var line :- OptionLine(v, prefs, Candidate(residence, room, tenancies[0]));
      Tenancies(v, prefs, residence, room, tenancies[1..], Batch(acc.count + 1, acc.messages + line))
  }

  /** One room: read its id, filter it, and only for a kept room fetch its
      tenancy options; a None or keyless response is skipped. */
  function RoomStep(v: Variant, prefs: Preferences, residence: Residence, room: Room, acc: Batch): Result<Batch> {
    var id :- Field(room.id, "id");
    var keep :- FilterRoom(v, prefs, room);
    if !keep then Ok(acc)
    else match room.options
      case Raised(m) => Err(Transport(m))
      case NullBody => Ok(acc)
      case KeyMissing => Ok(acc)
      case Items(tenancies) => Tenancies(v, prefs, residence, room, tenancies, acc)
  }

  function Rooms(v: Variant, prefs: Preferences, residence: Residence, rooms: seq<Room>, acc: Batch): Result<Batch>
    decreases |rooms|
  {
    if rooms == [] then Ok(acc)
    else
      var next :- RoomStep(v, prefs, residence, rooms[0], acc);
      Rooms(v, prefs, residence, rooms[1..], next)
  }

  /** One residence: read its id and content id, fetch its rooms; a None or
      keyless response is skipped. */
  function ResidenceStep(v: Variant, prefs: Preferences, residence: Residence, acc: Batch): Result<Batch> {
    var id :- Field(residence.id, "id");
    var contentId :- Field(residence.contentId, "contentId");
    match residence.rooms
    case Raised(m) => Err(Transport(m))
    case NullBody => Ok(acc)
    case KeyMissing => Ok(acc)
    case Items(rooms) => Rooms(v, prefs, residence, rooms, acc)
  }

  function Residences(v: Variant, prefs: Preferences, residences: seq<Residence>, acc: Batch): Result<Batch>
    decreases |residences|
  {
    if residences == [] then Ok(acc)
    else
      var next :- ResidenceStep(v, prefs, residences[0], acc);
      Residences(v, prefs, residences[1..], next)
  }

  /** The try block of `check_options`: the residences response is
      subscripted without a guard, so None or a missing key raises. */
  function ScanSpec(v: Variant, prefs: Preferences, snapshot: Response<Residence>): Result<Batch> {
    match snapshot
    case Raised(m) => Err(Transport(m))
    case NullBody => Err(TypeError(NoneSubscript))
    case KeyMissing => Err(KeyError("residences"))
    case Items(residences) => Residences(v, prefs, residences, Batch(0, ""))
  }

  // ---------------------------------------------------------------------------
  // The loops as the scripts run them

  /** The innermost loop of `check_options`, over the tenancy options of a
      kept room: read the option's fields, bump the count, and append the
      message when the year filter passes. */
  method ScanTenancies(v: Variant, prefs: Preferences, residence: Residence, room: Room,
                       tenancies: seq<Tenancy>, count0: nat, messages0: string) returns (r: Result<Batch>)
    ensures r == Tenancies(v, prefs, residence, room, tenancies, Batch(count0, messages0))
  {
    var count, messages := count0, messages0;
    var k := 0;
    while k < |tenancies|
      invariant 0 <= k <= |tenancies|
      invariant Tenancies(v, prefs, residence, room, tenancies, Batch(count0, messages0))
                == Tenancies(v, prefs, residence, room, tenancies[k..], Batch(count, messages))
    {
      var option := tenancies[k];
      assert tenancies[k..][0] == option && tenancies[k..][1..] == tenancies[k + 1..];
      if option.fromYear.None? {
        return Err(KeyError("fromYear"));
      }
      if option.toYear.None? {
        return Err(KeyError("toYear"));
      }
      var data := FirstOptionData(option);
      if data.Err? {
        return Err(data.error);
      }
      if v == YugoScript && data.value.name.None? {
        return Err(KeyError("name"));
      }
      ghost var before := messages;
      count := count + 1;
      var addMessage := YearsSelected(prefs, option.fromYear.value, option.toYear.value);
      if addMessage {
        var message := Message(v, residence, room, data.value);
        if message.Err? {
          return Err(message.error);
        }
        messages := messages + message.value + "\n";
        assert messages == before + (message.value + "\n");
      } else {
        assert messages == before + "";
      }
      k := k + 1;
    }
    return Ok(Batch(count, messages));
  }

  /** The loop over one residence's rooms: a room without an id raises, a room
      `filter_room` drops is skipped before any fetch, a kept room's options
      response is skipped when None or keyless. */
  method ScanRooms(v: Variant, prefs: Preferences, residence: Residence, rooms: seq<Room>,
                   count0: nat, messages0: string) returns (r: Result<Batch>)
    ensures r == Rooms(v, prefs, residence, rooms, Batch(count0, messages0))
  {
    var count, messages := count0, messages0;
    var j := 0;
    while j < |rooms|
      invariant 0 <= j <= |rooms|
      invariant Rooms(v, prefs, residence, rooms, Batch(count0, messages0))
                == Rooms(v, prefs, residence, rooms[j..], Batch(count, messages))
    {
      var room := rooms[j];
      assert rooms[j..][0] == room && rooms[j..][1..] == rooms[j + 1..];
      if room.id.None? {
        return Err(KeyError("id"));
      }
      var keep := FilterRoom(v, prefs, room);
      if keep.Err? {
        return Err(keep.error);
      }
      if keep.value {
        match room.options {
          case Raised(m) => return Err(Transport(m));
          case NullBody =>
          case KeyMissing =>
          case Items(tenancies) =>
            var done := ScanTenancies(v, prefs, residence, room, tenancies, count, messages);
            if done.Err? {
              return done;
            }
            count, messages := done.value.count, done.value.messages;
        }
      }
      j := j + 1;
    }
    return Ok(Batch(count, messages));
  }

  /** `check_options` up to the notification: the loop over the residences,
      with the room and option loops above nested in it, returning at the
      first exception. */
  method Scan(v: Variant, prefs: Preferences, snapshot: Response<Residence>) returns (r: Result<Batch>)
    ensures r == ScanSpec(v, prefs, snapshot)
  {
    var residences: seq<Residence>;
    match snapshot {
      case Raised(m) => return Err(Transport(m));
      case NullBody => return Err(TypeError(NoneSubscript));
      case KeyMissing => return Err(KeyError("residences"));
      case Items(rs) => residences := rs;
    }
    var messages := "";
    var count: nat := 0;
    var i := 0;
    while i < |residences|
      invariant 0 <= i <= |residences|
      invariant ScanSpec(v, prefs, snapshot) == Residences(v, prefs, residences[i..], Batch(count, messages))
    {
      var residence := residences[i];
      assert residences[i..][0] == residence && residences[i..][1..] == residences[i + 1..];
      if residence.id.None? {
        return Err(KeyError("id"));
      }
      if residence.contentId.None? {
        return Err(KeyError("contentId"));
      }
      match residence.rooms {
        case Raised(m) => return Err(Transport(m));
        case NullBody =>
        case KeyMissing =>
        case Items(rooms) =>
          var done := ScanRooms(v, prefs, residence, rooms, count, messages);
          if done.Err? {
            return done;
          }
          count, messages := done.value.count, done.value.messages;
      }
      i := i + 1;
    }
    return Ok(Batch(count, messages));
  }

  // ---------------------------------------------------------------------------
  // Reference: the options in traversal order, and the text they produce

  function TenancyCandidates(residence: Residence, room: Room, tenancies: seq<Tenancy>): (cs: seq<Candidate>)
    ensures |cs| == |tenancies|
    decreases |tenancies|
  {
    if tenancies == [] then []
    else [Candidate(residence, room, tenancies[0])] + TenancyCandidates(residence, room, tenancies[1..])
  }

  /** The options of the kept rooms whose options response holds a list. */
  function RoomCandidates(v: Variant, prefs: Preferences, residence: Residence, rooms: seq<Room>): seq<Candidate>
    decreases |rooms|
  {
    if rooms == [] then []
    else
      var room := rooms[0];
      (if FilterRoom(v, prefs, room) == Ok(true) && room.options.Items? then
         TenancyCandidates(residence, room, room.options.items)
       else [])
      + RoomCandidates(v, prefs, residence, rooms[1..])
  }

  /** Every option the pass examines, in residence -> room -> option order. */
  function Candidates(v: Variant, prefs: Preferences, residences: seq<Residence>): seq<Candidate>
    decreases |residences|
  {
    if residences == [] then []
    else
      var residence := residences[0];
      (if residence.rooms.Items? then RoomCandidates(v, prefs, residence, residence.rooms.items) else [])
      + Candidates(v, prefs, residences[1..])
  }

  /** The lines of the candidates, concatenated in order, or the first exception. */
  function Rendered(v: Variant, prefs: Preferences, cs: seq<Candidate>): Result<string>
    decreases |cs|
  {
    if cs == [] then Ok("")
    else
      var line :- OptionLine(v, prefs, cs[0]);
      var rest :- Rendered(v, prefs, cs[1..]);
      Ok(line + rest)
  }

  lemma {:induction false} RenderedAppend(v: Variant, prefs: Preferences, a: seq<Candidate>, b: seq<Candidate>)
    requires Rendered(v, prefs, a).Ok? && Rendered(v, prefs, b).Ok?
    ensures Rendered(v, prefs, a + b) == Ok(Rendered(v, prefs, a).value + Rendered(v, prefs, b).value)
    decreases |a|
  {
    if a == [] {
      assert a + b == b;
      assert "" + Rendered(v, prefs, b).value == Rendered(v, prefs, b).value;
    } else {
      assert (a + b)[0] == a[0] && (a + b)[1..] == a[1..] + b;
      RenderedAppend(v, prefs, a[1..], b);
      var line := OptionLine(v, prefs, a[0]).value;
      var left, right := Rendered(v, prefs, a[1..]).value, Rendered(v, prefs, b).value;
      assert line + (left + right) == (line + left) + right;
    }
  }

  lemma {:induction false} TenanciesAccounting(v: Variant, prefs: Preferences, residence: Residence, room: Room,
                                               tenancies: seq<Tenancy>, acc: Batch)
    requires Tenancies(v, prefs, residence, room, tenancies, acc).Ok?
    ensures var out := Tenancies(v, prefs, residence, room, tenancies, acc).value;
            var cs := TenancyCandidates(residence, room, tenancies);
            out.count == acc.count + |tenancies| && Rendered(v, prefs, cs).Ok?
            && out.messages == acc.messages + Rendered(v, prefs, cs).value
    decreases |tenancies|
  {
    if tenancies == [] {
      assert acc.messages + "" == acc.messages;
    } else {
      var c := Candidate(residence, room, tenancies[0]);
      var line := OptionLine(v, prefs, c).value;
      var next := Batch(acc.count + 1, acc.messages + line);
      var out := Tenancies(v, prefs, residence, room, tenancies, acc).value;
      assert Tenancies(v, prefs, residence, room, tenancies[1..], next) == Ok(out);
      TenanciesAccounting(v, prefs, residence, room, tenancies[1..], next);
      var rest := TenancyCandidates(residence, room, tenancies[1..]);
      RenderedCons(v, prefs, c, rest);
      assert TenancyCandidates(residence, room, tenancies) == [c] + rest;
      var restText := Rendered(v, prefs, rest).value;
      assert out.messages == (acc.messages + line) + restText;
      ConcatAssoc(acc.messages, line, restText);
      assert Rendered(v, prefs, TenancyCandidates(residence, room, tenancies)) == Ok(line + restText);
      assert out.count == acc.count + |tenancies|;
    }
  }

  lemma ConcatAssoc(a: string, b: string, c: string)
    ensures (a + b) + c == a + (b + c)
  {
  }

  lemma RenderedCons(v: Variant, prefs: Preferences, c: Candidate, rest: seq<Candidate>)
    requires OptionLine(v, prefs, c).Ok? && Rendered(v, prefs, rest).Ok?
    ensures Rendered(v, prefs, [c] + rest) == Ok(OptionLine(v, prefs, c).value + Rendered(v, prefs, rest).value)
  {
    assert ([c] + rest)[0] == c && ([c] + rest)[1..] == rest;
  }

  lemma {:induction false} RoomsAccounting(v: Variant, prefs: Preferences, residence: Residence,
                                           rooms: seq<Room>, acc: Batch)
    requires Rooms(v, prefs, residence, rooms, acc).Ok?
    ensures var out := Rooms(v, prefs, residence, rooms, acc).value;
            var cs := RoomCandidates(v, prefs, residence, rooms);
            out.count == acc.count + |cs| && Rendered(v, prefs, cs).Ok?
            && out.messages == acc.messages + Rendered(v, prefs, cs).value
    decreases |rooms|
  {
    if rooms != [] {
      var room := rooms[0];
      var next := RoomStep(v, prefs, residence, room, acc).value;
      RoomsAccounting(v, prefs, residence, rooms[1..], next);
      var here := if FilterRoom(v, prefs, room) == Ok(true) && room.options.Items? then
                    TenancyCandidates(residence, room, room.options.items)
                  else [];
      var rest := RoomCandidates(v, prefs, residence, rooms[1..]);
      if FilterRoom(v, prefs, room) == Ok(true) && room.options.Items? {
        TenanciesAccounting(v, prefs, residence, room, room.options.items, acc);
      } else {
        assert next == acc;
        assert Rendered(v, prefs, here) == Ok("");
      }
      RenderedAppend(v, prefs, here, rest);
    }
  }

  lemma {:induction false} ResidencesAccounting(v: Variant, prefs: Preferences, residences: seq<Residence>, acc: Batch)
    requires Residences(v, prefs, residences, acc).Ok?
    ensures var out := Residences(v, prefs, residences, acc).value;
            var cs := Candidates(v, prefs, residences);
            out.count == acc.count + |cs| && Rendered(v, prefs, cs).Ok?
            && out.messages == acc.messages + Rendered(v, prefs, cs).value
    decreases |residences|
  {
    if residences != [] {
      var residence := residences[0];
      var next := ResidenceStep(v, prefs, residence, acc).value;
      assert Residences(v, prefs, residences, acc) == Residences(v, prefs, residences[1..], next);
      ResidencesAccounting(v, prefs, residences[1..], next);
      var here := if residence.rooms.Items? then RoomCandidates(v, prefs, residence, residence.rooms.items) else [];
      var rest := Candidates(v, prefs, residences[1..]);
      if residence.rooms.Items? {
        RoomsAccounting(v, prefs, residence, residence.rooms.items, acc);
      } else {
        assert next == acc;
        assert Rendered(v, prefs, here) == Ok("");
      }
      RenderedAppend(v, prefs, here, rest);
    }
  }

  /** A pass that completes has examined exactly the options of the kept rooms,
      in traversal order, whether or not they pass the year filter, and its
      messages are their lines concatenated in that order. */
  lemma ScanAccounting(v: Variant, prefs: Preferences, snapshot: Response<Residence>)
    requires ScanSpec(v, prefs, snapshot).Ok?
    ensures snapshot.Items?
    ensures var out := ScanSpec(v, prefs, snapshot).value;
            var cs := Candidates(v, prefs, snapshot.items);
            out.count == |cs| && Rendered(v, prefs, cs) == Ok(out.messages)
  {
    ResidencesAccounting(v, prefs, snapshot.items, Batch(0, ""));
    var text := Rendered(v, prefs, Candidates(v, prefs, snapshot.items)).value;
    assert "" + text == text;
  }

  // ---------------------------------------------------------------------------
  // Properties of the pass

  /** A city with no residences: nothing examined, nothing to report, no exception. */
  lemma EmptyCity(v: Variant, prefs: Preferences)
    ensures ScanSpec(v, prefs, Items([])) == Ok(Batch(0, ""))
  {
  }

  lemma {:induction false} ResidencesAppend(v: Variant, prefs: Preferences, a: seq<Residence>, b: seq<Residence>,
                                            acc: Batch)
    ensures Residences(v, prefs, a + b, acc) ==
              match Residences(v, prefs, a, acc)
              case Err(e) => Err(e)
              case Ok(mid) => Residences(v, prefs, b, mid)
    decreases |a|
  {
    if a == [] {
      assert a + b == b;
    } else {
      assert (a + b)[0] == a[0] && (a + b)[1..] == a[1..] + b;
      match ResidenceStep(v, prefs, a[0], acc)
      case Err(e) =>
      case Ok(next) => ResidencesAppend(v, prefs, a[1..], b, next);
    }
  }

  /** An exception while handling residence k ends the pass with that exception:
      the residences after it are never visited and no partial batch survives. */
  lemma AbortAtResidence(v: Variant, prefs: Preferences, residences: seq<Residence>, k: nat)
    requires k < |residences|
    requires Residences(v, prefs, residences[..k], Batch(0, "")).Ok?
    requires ResidenceStep(v, prefs, residences[k], Residences(v, prefs, residences[..k], Batch(0, "")).value).Err?
    ensures ScanSpec(v, prefs, Items(residences)) ==
              Err(ResidenceStep(v, prefs, residences[k], Residences(v, prefs, residences[..k], Batch(0, "")).value).error)
  {
    assert residences == residences[..k] + residences[k..];
    ResidencesAppend(v, prefs, residences[..k], residences[k..], Batch(0, ""));
    assert residences[k..][0] == residences[k];
  }

  /** A room `filter_room` drops costs no fetch: whatever its options response
      would have been, a failing one included, the room leaves the batch as it
      was. */
  lemma DroppedRoomNotFetched(v: Variant, prefs: Preferences, residence: Residence, room: Room, acc: Batch)
    requires room.id.Some? && FilterRoom(v, prefs, room) == Ok(false)
    ensures RoomStep(v, prefs, residence, room, acc) == Ok(acc)
  {
  }

  /** In particular a room not explicitly unsold (soldOut missing, True, or
      anything not equal to False) is skipped, options response and preferences
      notwithstanding. */
  lemma SoldOutRoomSkipped(v: Variant, prefs: Preferences, residence: Residence, room: Room, acc: Batch)
    requires room.id.Some? && !NotSoldOut(room)
    ensures RoomStep(v, prefs, residence, room, acc) == Ok(acc)
  {
  }

  /** With the year filter off, every examined option yields a line, so a batch
      is empty exactly when it examined no option. */
  lemma {:induction false} RenderedEmptyIff(v: Variant, prefs: Preferences, cs: seq<Candidate>)
    requires !(IsSet(prefs.fromYear) && IsSet(prefs.toYear))
    requires Rendered(v, prefs, cs).Ok?
    ensures Rendered(v, prefs, cs).value == "" <==> cs == []
    decreases |cs|
  {
    if cs != [] {
      var line := OptionLine(v, prefs, cs[0]).value;
      assert line != "";
      RenderedEmptyIff(v, prefs, cs[1..]);
      assert |line + Rendered(v, prefs, cs[1..]).value| >= |line|;
    }
  }

  lemma NoYearFilterReportsAll(v: Variant, prefs: Preferences, snapshot: Response<Residence>)
    requires !(IsSet(prefs.fromYear) && IsSet(prefs.toYear))
    requires ScanSpec(v, prefs, snapshot).Ok?
    ensures ScanSpec(v, prefs, snapshot).value.messages == "" <==> ScanSpec(v, prefs, snapshot).value.count == 0
  {
    ScanAccounting(v, prefs, snapshot);
    RenderedEmptyIff(v, prefs, Candidates(v, prefs, snapshot.items));
  }

  /** The year filter matches both years exactly: with 2024-2025 in force, an
      option running 2024-2025 yields its message and one running 2023-2024
      yields nothing; both are counted by the loop. */
  lemma YearFilterExample(v: Variant, residence: Residence, room: Room, data: OptionData)
    requires Message(v, residence, room, data).Ok?
    ensures var prefs := Preferences(None, None, None, Some(2024.0), Some(2025.0));
            var match2024 := Tenancy(Some(PyInt(2024)), Some(PyInt(2025)), Some([data]));
            var miss2023 := Tenancy(Some(PyInt(2023)), Some(PyInt(2024)), Some([data]));
            OptionLine(v, prefs, Candidate(residence, room, match2024))
              == Ok(Message(v, residence, room, data).value + "\n")
            && OptionLine(v, prefs, Candidate(residence, room, miss2023)) == Ok("")
  {
  }
}
