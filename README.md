# yugo-scraper room filter and aggregation pass, in Dafny

This project models the decision core of the Yugo student-housing scraper. It covers
both near-duplicate scripts, `main.py` and `yugo_api_scraper.py`.

- **Room filter** (`check_arrangement`, `get_monthly_price`, `filter_room`). A room is
  kept only when its `soldOut` field equals `False`. When the user asked for a private
  bathroom or kitchen, the arrangement text must contain "private" in any case. When a
  price cap is set, a monthly price derived from the room must stay at or under it.
  `main.py` derives the monthly price from the label, the billing-cycle price or the
  nightly price. `yugo_api_scraper.py` uses only the nightly price × 7 × 4.33.
- **Aggregation pass** (`check_options`). It walks residences → rooms → tenancy options
  for one city. Rooms or options responses that are None or keyless are skipped. The
  options of a room are fetched only when the room passes `filter_room`. Every option
  examined is counted. Each option passing the exact-year filter appends one message
  line. Any exception abandons the whole pass.
- **Notification decision** after the pass, and the empty-message guard of
  `send_notification`.

The fetched data is an input snapshot. Each `Residence` carries the response its rooms
GET would return. Each `Room` carries the response its tenancy-options GET would return.
A response is `Raised(message) | NullBody | KeyMissing | Items(seq)`, where `Raised`
means `requests.get` or `.json()` threw.

Python semantics are written out:
- truthiness of None, False, 0, 0.0 and "";
- `== False` holds for 0 and 0.0 too;
- `== n` between JSON values and a number, int or float alike;
- `str()`, ASCII `lower()` and the substring test;
- `float()` on decimal text;
- the exceptions the traversal raises on scalar record fields: `KeyError`, `IndexError`,
  `TypeError`, `AttributeError` and `ValueError`, each with its `str(e)` text. The
  `OverflowError` of `float()` on a huge int is not among them (see "Left out").

Prices, the price cap and the years are exact `real`s, and 4.33 is the rational 433/100.
`main.py` reads the cap and the years with `float(input())`, so a cap such as 999.5 is
possible. `yugo_api_scraper.py` reads them with `int(input())`, and its values are the
integral reals.

Modules:
- `PyValues` (`python_values.dfy`): Python values and built-ins.
- `Listings` (`listings.dfy`): the records, responses and preferences.
- `RoomFilter` (`room_filter.dfy`).
- `Aggregation` (`aggregation.dfy`): the pass, written twice. First as a fold
  (`ScanSpec`). Then as three nested loops (`Scan`, `ScanRooms`, `ScanTenancies`),
  which update `count` and `messages` step by step and are proved equal to the fold.
- `Dispatch` (`dispatch.dfy`).

The two scripts share one pipeline parameterised by `Variant = MainScript | YugoScript`.
They differ in four places:
- the price rule;
- `yugo_api_scraper.py` reads the option name before counting the option;
- the message format;
- when a notification is sent.

Some behaviours of the scripts are easy to mistake. The model follows the code:
- A residences response that is None or lacks `"residences"` raises and aborts the run
  (`main.py:160`). It is not treated as zero residences.
- In `yugo_api_scraper.py` a non-numeric `minPricePerNight` raises out of `filter_room`
  and aborts the run (`yugo_api_scraper.py:135`). It does not degrade to "no price".
  In `main.py` a truthy non-string `priceLabel` raises `AttributeError` the same way.
- On an exception the count of options examined so far is discarded. Only `str(e)` is
  sent, and in `main.py` only when notifications are on.
- The message reads the key `roomArrangemets` as spelled at `main.py:204`. A room record
  without that key raises `KeyError` as soon as one of its options would be reported.

## Model

| member | source | states |
|---|---|---|
| PyValues.ContainsLowerIsAnyCase | main.py:87 | `w in s.lower()` holds exactly when some window of `s` spells the lower-case word `w` in any mix of cases |
| PyValues.ToFloatOfIntText | main.py:98 | `float()` applied to the decimal text of any int gives back that int, so the parser and `str()` agree on integers |
| Listings.Field | main.py:161-162 | `d[key]` gives the field's value when the record has it, and `KeyError(key)` otherwise |
| Listings.FirstOptionData | main.py:191 | `option["tenancyOption"][0]` gives the first entry. A missing key raises `KeyError` and an empty list raises `IndexError` |
| RoomFilter.CheckArrangementMeaning | main.py:83-88 | `check_arrangement` answers None exactly for an absent or falsy field, and True exactly for a string that says "private" in any case. It raises exactly for a truthy non-string |
| RoomFilter.FractionalCapExample | main.py:139-143 | A float cap works as main.py reads it: a room at 606.2 a month is kept under a cap of 606.5 and dropped under 606.1 |
| RoomFilter.ArrangementExamples | yugo_api_scraper.py:98-103 | "Private en-suite" counts as private and "Shared" does not |
| RoomFilter.Numeric | main.py:109-114 | `if x: float(x)`, with ValueError caught, yields a number only for a truthy field that `float()` accepts, and that number is what `float()` returns |
| RoomFilter.MainMonthlyPriceRules | main.py:90-115 | The four pricing rules, each as its own ensures. (1) A "month" label with a usable billing price gives that price. (2) Otherwise a "week" label gives billing × 4.33. (3) Otherwise a usable nightly price gives nightly × 7 × 4.33. (4) Otherwise None. "month" is tested before "week", and a billing price that fails `float()` falls through to the nightly rule. Only a truthy non-string label raises |
| RoomFilter.WeeklyExample | main.py:101-107 | A "Weekly" label with billing price 100 gives 433 a month |
| RoomFilter.MonthlyExample | main.py:94-100 | A "Monthly" label with billing price 1500 gives exactly 1500 |
| RoomFilter.NightlyExample | main.py:109-112 | A nightly price of 20 with no label gives 606.2 a month, in both scripts |
| RoomFilter.YugoCapAsNightlyPrice | yugo_api_scraper.py:105-106 | `get_monthly_price(p)` equals p × 30.31. It stays at or under a cap exactly when p is at most cap / 30.31 |
| RoomFilter.FilterRoom | main.py:117-145 | A room whose `soldOut` is missing or not equal to False is dropped, whatever the preferences. With no preference in force, exactly the rooms whose `soldOut` equals False are kept |
| RoomFilter.ArrangementAllowedMeaning | yugo_api_scraper.py:116-127 | With the private-bathroom or private-kitchen preference truthy, the room passes exactly when its arrangement text says "private". A falsy preference imposes nothing and never raises |
| RoomFilter.FilterRoomAdmits | main.py:120-145 | A room is kept exactly when it is not sold out, every arrangement preference in force is met, and the cap in force admits its price. For main.py the cap needs a derived non-zero monthly price at most the cap. For yugo it needs a truthy nightly price that converts and whose month stays at most the cap |
| RoomFilter.CapBoundary | main.py:139-143 | The cap is inclusive in both scripts, for any non-zero real cap, fractional ones included. A monthly price equal to the cap is kept and one a cent above is dropped |
| RoomFilter.FilterRoomMonotone | yugo_api_scraper.py:108-142 | Adding a constraint or lowering the cap can only shrink the set of kept rooms |
| RoomFilter.NonNumericNightlyPrice | yugo_api_scraper.py:130-140 | A non-numeric nightly price under a cap makes main.py drop the room. In yugo_api_scraper.py the same price raises ValueError out of `filter_room` |
| Aggregation.Message | main.py:204 | The message f-string raises KeyError exactly when one of the fields it interpolates is missing: six fields for main.py, three for yugo_api_scraper.py. Otherwise it gives non-empty text |
| Aggregation.MainMessageExample | main.py:204 | main.py's message reads "Space: H\nRoom type: R - P, A\nLength of stay: N, L" for residence H, room R priced P with arrangements A, and option N labelled L, word for word |
| Aggregation.YugoMessageExample | yugo_api_scraper.py:199 | yugo_api_scraper.py's message reads "Residence: H, Room: R, Option: N" for the same records, word for word |
| Aggregation.OptionLine | yugo_api_scraper.py:183-200 | An option that is handled has both years and a first option entry. It appends text exactly when the year filter passes, and that text is its message followed by "\n" |
| Aggregation.ScanTenancies | main.py:188-205 | The option loop, which counts and appends per option and stops at the first exception, yields what the specification fold `Tenancies` yields |
| Aggregation.ScanRooms | main.py:173-185 | The room loop yields what the fold `Rooms` yields. It reads the room id, filters, skips dropped rooms before any fetch, and skips None or keyless options responses |
| Aggregation.Scan | main.py:148-206 | The whole try block, run as nested loops, equals the specification fold `ScanSpec` on every snapshot |
| Aggregation.ScanAccounting | main.py:156-205 | A completed pass has a count equal to the number of tenancy options of kept rooms, counted whether or not they pass the year filter. Its messages are those options' lines concatenated in residence → room → option order |
| Aggregation.EmptyCity | yugo_api_scraper.py:151-155 | A city with no residences gives count 0 and no messages, without raising |
| Aggregation.AbortAtResidence | main.py:148-219 | An exception while handling residence k ends the pass with that exception. The later residences are not visited and no partial batch is returned |
| Aggregation.DroppedRoomNotFetched | main.py:176-185 | A room `filter_room` drops leaves the batch unchanged whatever its options response, a failing one included, so its options are never fetched |
| Aggregation.SoldOutRoomSkipped | yugo_api_scraper.py:111-114 | A room whose `soldOut` is missing or not False is skipped without a fetch, whatever the preferences |
| Aggregation.NoYearFilterReportsAll | yugo_api_scraper.py:189-200 | Without both years in force every examined option yields a message, so the batch is empty exactly when the count is 0 |
| Aggregation.YearFilterExample | main.py:194-201 | With years 2024-2025 in force, a 2024-2025 option yields its message and a 2023-2024 option yields nothing |
| Dispatch.SendNotification | main.py:221-223 | Nothing is posted for None or an empty message. Any other message is posted unchanged |
| Dispatch.MainNotification | main.py:208-219 | main.py posts nothing with notifications off. With them on it posts a non-empty batch, nothing for an empty batch, and the non-empty `str(e)` of an exception |
| Dispatch.YugoNotification | yugo_api_scraper.py:202-210 | yugo_api_scraper.py always posts a non-empty batch, never an empty one, and always the non-empty `str(e)` of an exception |
| Dispatch.MainCheckOptions | main.py:147-219 | main.py `check_options` posts what `MainNotification` decides for the outcome of the pass |
| Dispatch.YugoCheckOptions | yugo_api_scraper.py:144-210 | yugo_api_scraper.py `check_options` posts what `YugoNotification` decides for the outcome of the pass |
| Dispatch.YugoSendsRenderedBatch | yugo_api_scraper.py:198-204 | After a completed pass, yugo_api_scraper.py sends the lines of the examined options in traversal order, and sends nothing when no line was produced |
| Dispatch.SecondResidenceFetchFails | yugo_api_scraper.py:155-166 | A failing rooms fetch for the second residence aborts the pass, and its message is the one notification. yugo_api_scraper.py always sends it. main.py sends it only with notifications on |

## Left out

- HTTP and JSON decoding (`requests.get`, `response.json`) are not modelled. Their results are the snapshot's responses, and a failure is the `Raised` response.
- The Pushover POST is not modelled. The model returns the text that would be posted; the status-code handling and its logging are left out.
- MainCheckOptions, YugoCheckOptions: a POST that raises is not modelled. In both scripts the batch is sent inside the `try`, so a raising `requests.post` would send `str(e)` as a second notification, and a raise from that second POST would escape `check_options`. The model returns at most one posted text and assumes every POST returns.
- Logging (`set_up_logging` and every `logger` call) is left out, including the logged count of options examined.
- The console UI is left out: `check_item`, `get_data`, `set_options`, the yes/no and numeric prompts, and all of `console_ui.py`. The preferences they build are an input.
- `main()` is left out: the environment-variable credential check, the one immediate run without notifications, and the one-minute `schedule` loop with `time.sleep`. `MainCheckOptions` takes the `notifications` flag the scheduled runs pass.
- IEEE-754 arithmetic is not modelled. Prices are exact reals, so products such as × 4.33 are exact. A float field carries the text Python's repr() prints for it, and that text is what a message shows.
- ToFloat: an int beyond the double range (about 1.8e308) converts to its exact real. Python's `float()` raises `OverflowError` there instead. Neither `main.py`'s `except ValueError` nor `yugo_api_scraper.py` catches it, so in both scripts it would leave `filter_room` and abort the pass with its `str(e)` sent. The model keeps the room's price and goes on, because the double range is part of the IEEE-754 arithmetic the model does not represent.
- `float()` on text accepts only plain decimals: optional surrounding ASCII white space (' ' and \t to \r), an optional sign, digits with an optional fraction. Exponents, `inf`, `nan`, underscores, non-ASCII digits, and text surrounded by the other characters Python strips (\x1c to \x1f and Unicode spaces) are treated as non-numeric. Decimal text beyond the double range is read as its exact value, where Python gives `inf`.
- `str.lower()` maps only the ASCII letters. Other characters are left unchanged.
- In the `ValueError` text of `float()` the string is shown between single quotes without repr()'s escaping.
- Record fields are JSON scalars (None, bool, int, float, str). A field that decodes to a list or an object is not modelled. For such a price `float()` raises `TypeError`, which `main.py`'s `except ValueError` does not catch, and `check_arrangement` raises `AttributeError` for 'list' or 'dict'; both abort the run.
- A collection key whose value is not a list is not modelled. Neither is a response that decodes to a list or a scalar rather than a mapping or None.
- The user's preferences are typed as `set_options` builds them: yes/no answers as booleans, and the cap and years as numbers (reals, covering `main.py`'s floats and `yugo_api_scraper.py`'s ints). Other value types in `my_options` are not modelled, so `private_bathroom_option != private_bathroom` needs no case of its own. A float preference such as `inf`, which `float(input())` accepts, is not modelled.
- The ids read from records (`residence["id"]`, `residence["contentId"]`, `room["id"]`) only build URLs. The model keeps only the KeyError their absence raises.
- Each script runs the pass as one function with three nested loops. The model puts each loop in a method of its own (`Scan`, `ScanRooms`, `ScanTenancies`) that hands `count` and `messages` on to the next.
