/** The end of `check_options` in each script: what, if anything, goes to
    `send_notification` after the pass, and the guard of `send_notification`
    itself. The Pushover POST is the text the model returns. */
module Dispatch {
  import opened PyValues
  import opened Listings
  import opened Aggregation

  /** `send_notification(message)`: the text that would be POSTed, or None
      when the message is None or empty and the function returns at once. */
  function SendNotification(message: Option<string>): (posted: Option<string>)
    ensures posted.Some? <==> message.Some? && message.value != ""
    ensures posted.Some? ==> posted == message
  {
    if message.None? || message.value == "" then None else message
  }

  /** main.py: a non-empty batch is sent, and an exception's text too, but
      only when the run has notifications on; an empty batch is only logged. */
  function MainNotification(outcome: Result<Batch>, notifications: bool): (posted: Option<string>)
    ensures !notifications ==> posted == None
    ensures notifications && outcome.Ok? ==>
              posted == (if outcome.value.messages == "" then None else Some(outcome.value.messages))
    ensures notifications && outcome.Err? ==>
              posted == (if ErrorText(outcome.error) == "" then None else Some(ErrorText(outcome.error)))
  {
    match outcome
    case Ok(batch) =>
      if batch.messages != "" then
        if notifications then SendNotification(Some(batch.messages)) else None
      else None
    case Err(e) => if notifications then SendNotification(Some(ErrorText(e))) else None
  }

  /** yugo_api_scraper.py: a non-empty batch is always sent, an empty one only
      logged, and an exception's text is always sent. */
  function YugoNotification(outcome: Result<Batch>): (posted: Option<string>)
    ensures outcome.Ok? ==> (posted.Some? <==> outcome.value.messages != "")
    ensures outcome.Ok? && posted.Some? ==> posted.value == outcome.value.messages
    ensures outcome.Err? ==>
              posted == (if ErrorText(outcome.error) == "" then None else Some(ErrorText(outcome.error)))
  {
    match outcome
    case Ok(batch) => if batch.messages != "" then SendNotification(Some(batch.messages)) else None
    case Err(e) => SendNotification(Some(ErrorText(e)))
  }

  /** main.py `check_options(city_id, my_options, notifications)`. */
  method MainCheckOptions(prefs: Preferences, snapshot: Response<Residence>, notifications: bool)
    returns (posted: Option<string>)
    ensures posted == MainNotification(ScanSpec(MainScript, prefs, snapshot), notifications)
  {
    var outcome := Scan(MainScript, prefs, snapshot);
    if outcome.Ok? {
      if outcome.value.messages != "" {
        if notifications {
          posted := SendNotification(Some(outcome.value.messages));
        } else {
          posted := None;
        }
      } else {
        posted := None;
      }
    } else {
      if notifications {
        posted := SendNotification(Some(ErrorText(outcome.error)));
      } else {
        posted := None;
      }
    }
  }

  /** yugo_api_scraper.py `check_options(city_id, my_options)`. */
  method YugoCheckOptions(prefs: Preferences, snapshot: Response<Residence>) returns (posted: Option<string>)
    ensures posted == YugoNotification(ScanSpec(YugoScript, prefs, snapshot))
  {
    var outcome := Scan(YugoScript, prefs, snapshot);
    if outcome.Ok? {
      if outcome.value.messages != "" {
        posted := SendNotification(Some(outcome.value.messages));
      } else {
        posted := None;
      }
    } else {
      posted := SendNotification(Some(ErrorText(outcome.error)));
    }
  }

  /** What yugo_api_scraper.py sends after a completed pass is the lines of the
      examined options in traversal order, and nothing when none passed. */
  lemma YugoSendsRenderedBatch(prefs: Preferences, snapshot: Response<Residence>)
    requires ScanSpec(YugoScript, prefs, snapshot).Ok?
    ensures var text := Rendered(YugoScript, prefs, Candidates(YugoScript, prefs, snapshot.items));
            text.Ok? && YugoNotification(ScanSpec(YugoScript, prefs, snapshot))
                        == (if text.value == "" then None else Some(text.value))
  {
    ScanAccounting(YugoScript, prefs, snapshot);
  }

  /** A failing rooms fetch for the second residence, after the first went
      through, abandons the pass and its text is the one notification, in
      yugo_api_scraper.py always and in main.py when notifications are on. */
  lemma SecondResidenceFetchFails(prefs: Preferences, first: Residence, second: Residence,
                                  rest: seq<Residence>, message: string)
    requires message != ""
    requires second.id.Some? && second.contentId.Some? && second.rooms == Raised(message)
    requires Residences(YugoScript, prefs, [first], Batch(0, "")).Ok?
    requires Residences(MainScript, prefs, [first], Batch(0, "")).Ok?
    ensures YugoNotification(ScanSpec(YugoScript, prefs, Items([first, second] + rest))) == Some(message)
    ensures MainNotification(ScanSpec(MainScript, prefs, Items([first, second] + rest)), true) == Some(message)
    ensures MainNotification(ScanSpec(MainScript, prefs, Items([first, second] + rest)), false) == None
  {
    var residences := [first, second] + rest;
    assert residences[..1] == [first] && residences[1] == second;
    AbortAtResidence(YugoScript, prefs, residences, 1);
    AbortAtResidence(MainScript, prefs, residences, 1);
  }
}
