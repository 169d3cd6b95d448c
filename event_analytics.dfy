/** The organiser's event-analytics page: the page size chosen from the window
    width, the number of pages, the clamp of the current page, the window of
    events shown, the free-event test, the time shown on a card and the message
    shown when loading the events fails. */
module EventAnalytics {
  import opened Wrappers
  import opened Text

  // ---------------------------------------------------------------------------
  // Events
  // ---------------------------------------------------------------------------

  /** A ticket's `price`: a number, or anything else. */
  datatype Price = Number(value: real) | NotNumber

  datatype Ticket = Ticket(price: Price)

  /** An entry of an event's `schedule`. */
  datatype Session = Session(startTime: Option<string>)

  /** The fields of an event the page looks at; `None` is a missing (or `null`)
      field. */
  datatype Event = Event(
    category: Option<string>,
    tickets: Option<seq<Ticket>>,
    startDate: Option<string>,
    schedule: Option<seq<Session>>)

  /** A category that reads "free" in any mix of upper and lower case. */
  predicate FreeWord(c: string) {
    && |c| == 4
    && (c[0] == 'f' || c[0] == 'F') && (c[1] == 'r' || c[1] == 'R')
    && (c[2] == 'e' || c[2] == 'E') && (c[3] == 'e' || c[3] == 'E')
  }

  /** Some ticket of the event costs exactly zero. */
  predicate HasFreeTicket(e: Event) {
    e.tickets.Some? && exists i :: 0 <= i < |e.tickets.value| && e.tickets.value[i].price == Number(0.0)
  }

  /** `isFreeEvent`: the lower-cased category is "free", or else some ticket has
      price 0; false when both fields are missing. */
  function IsFreeEvent(e: Event): (r: bool)
    ensures e.category.None? && e.tickets.None? ==> !r
  {
    if e.category.Some? && Lower(e.category.value) == "free" then true
    else if e.tickets.Some? then exists i :: 0 <= i < |e.tickets.value| && e.tickets.value[i].price == Number(0.0)
    else false
  }

  /** An event is free exactly when its category spells "free" in some case, or
      one of its tickets costs nothing. */
  lemma FreeEventIff(e: Event)
    ensures IsFreeEvent(e) <==> (e.category.Some? && FreeWord(e.category.value)) || HasFreeTicket(e)
  {
    if e.category.Some? {
      LowerFree(e.category.value);
    }
  }

  lemma LowerFree(c: string)
    ensures Lower(c) == "free" <==> FreeWord(c)
  {
    var l := Lower(c);
    if FreeWord(c) {
      assert l == "free" by {
        assert |l| == 4;
        assert l[0] == 'f' && l[1] == 'r' && l[2] == 'e' && l[3] == 'e';
      }
    }
    if l == "free" {
      assert l[0] == LowerChar(c[0]) && l[1] == LowerChar(c[1]);
      assert l[2] == LowerChar(c[2]) && l[3] == LowerChar(c[3]);
    }
  }

  /** The time on an event card: the start date's local time (its formatting is
      not modelled), or a text. */
  datatype TimeText = LocalTime(startDate: string) | Shown(text: string)

  const NoTime := "TBD"

  /** `formatTime`: a non-empty start date first, then the first schedule entry's
      non-empty start time, then "TBD". */
  function FormatTime(e: Event): (r: TimeText)
    ensures (e.startDate.Some? && e.startDate.value != "") <==> r.LocalTime?
    ensures r.Shown? ==> r.text != ""
    ensures r.Shown? && r.text != NoTime ==>
              e.schedule.Some? && |e.schedule.value| > 0 && e.schedule.value[0].startTime == Some(r.text)
  {
    if e.startDate.Some? && e.startDate.value != "" then LocalTime(e.startDate.value)
    else if e.schedule.Some? && |e.schedule.value| > 0
            && e.schedule.value[0].startTime.Some? && e.schedule.value[0].startTime.value != "" then
      Shown(e.schedule.value[0].startTime.value)
    else Shown(NoTime)
  }

  /** Without a start date, a card shows the first session's start time when it
      has one, and "TBD" otherwise. */
  lemma TimeFallback(e: Event)
    requires e.startDate.None? || e.startDate.value == ""
    ensures e.schedule.Some? && |e.schedule.value| > 0 && e.schedule.value[0].startTime.Some?
              && e.schedule.value[0].startTime.value != ""
            ==> FormatTime(e) == Shown(e.schedule.value[0].startTime.value)
    ensures e.schedule.None? || |e.schedule.value| == 0 ==> FormatTime(e) == Shown(NoTime)
  {
  }

  // ---------------------------------------------------------------------------
  // Pagination
  // ---------------------------------------------------------------------------

  /** The page size for a window `width` pixels wide: 8 from 1536 up, else 6. */
  function EventsPerPage(width: int): (per: nat)
    ensures per == 6 || per == 8
    ensures per == 8 <==> width >= 1536
  {
    if width >= 1536 then 8 else 6
  }

  /** `Math.ceil(count / per)`. */
  function TotalPages(count: nat, per: nat): (r: nat)
    requires per > 0
  {
    (count + per - 1) / per
  }

  /** The number of pages is the least number of pages of `per` events that
      holds them all; it is 0 exactly when there are no events. */
  lemma TotalPagesBounds(count: nat, per: nat)
    requires per > 0
    ensures TotalPages(count, per) * per >= count
    ensures count > 0 ==> (TotalPages(count, per) - 1) * per < count
    ensures TotalPages(count, per) == 0 <==> count == 0
  {
    var q, r := (count + per - 1) / per, (count + per - 1) % per;
    assert count + per - 1 == q * per + r;
    assert q * per == count + per - 1 - r;
  }

  lemma MulMono(a: int, b: int, c: nat)
    requires a <= b
    ensures a * c <= b * c
  {
  }

  /** The effect run when the page size, the number of events or the page
      changes: past the last page, go to the last page. */
  function Clamp(current: int, total: nat): (r: int)
    ensures 1 <= current && total > 0 ==> 1 <= r <= total
    ensures 1 <= current <= total ==> r == current
    ensures current <= total || total == 0 ==> r == current
    ensures Clamp(r, total) == r
  {
    if current > total && total > 0 then total else current
  }

  /** The index `Array.prototype.slice` makes of `i` on a list of `len` elements:
      a negative index counts from the end; both ends are clipped to the list. */
  function Relative(i: int, len: nat): (r: nat)
    ensures r <= len
    ensures 0 <= i ==> r == if i < len then i else len
  {
    if i < 0 then (if len + i < 0 then 0 else len + i)
    else if i > len then len
    else i
  }

  /** `Relative` never widens a gap. */
  lemma RelativeGap(a: int, b: int, len: nat)
    requires a <= b
    ensures Relative(b, len) <= Relative(a, len) + (b - a)
  {
  }

  /** `s.slice(start, end)`: an unbroken stretch of `s` from the resolved start,
      ending no later than the resolved end. */
  function Slice<T>(s: seq<T>, start: int, end: int): (r: seq<T>)
    ensures Relative(start, |s|) + |r| <= |s|
    ensures r == s[Relative(start, |s|)..Relative(start, |s|) + |r|]
    ensures r != [] ==> Relative(start, |s|) + |r| == Relative(end, |s|)
  {
    var from, to := Relative(start, |s|), Relative(end, |s|);
    if from < to then s[from..to] else []
  }

  /** The events shown on `page`: `events.slice(page * per - per, page * per)`. */
  function Window<T>(events: seq<T>, page: int, per: nat): (r: seq<T>) {
    Slice(events, page * per - per, page * per)
  }

  function Min(a: int, b: int): (r: int) {
    if a < b then a else b
  }

  /** Whatever the page, at most `per` events are shown. */
  lemma WindowAtMost<T>(events: seq<T>, page: int, per: nat)
    ensures |Window(events, page, per)| <= per
  {
    RelativeGap(page * per - per, page * per, |events|);
  }

  /** On a page between 1 and the number of pages, the window is the page's
      stretch of the list, cut at its end, and is not empty. */
  lemma WindowOnPage<T>(events: seq<T>, page: int, per: nat)
    requires per > 0 && 1 <= page <= TotalPages(|events|, per)
    ensures Window(events, page, per) == events[(page - 1) * per..Min(page * per, |events|)]
    ensures |Window(events, page, per)| > 0
  {
    PageBefore(page, per, |events|);
    SliceInside(events, page * per - per, page * per);
  }

  /** The first index of a page up to the last is inside the list. */
  lemma PageBefore(page: int, per: nat, count: nat)
    requires per > 0 && 1 <= page <= TotalPages(count, per)
    ensures page * per - per == (page - 1) * per
    ensures 0 <= (page - 1) * per < count
  {
    TotalPagesBounds(count, per);
    MulMono(0, page - 1, per);
    MulMono(page - 1, TotalPages(count, per) - 1, per);
  }

  lemma SliceInside<T>(s: seq<T>, lo: int, hi: int)
    requires 0 <= lo < |s| && lo < hi
    ensures Slice(s, lo, hi) == s[lo..Min(hi, |s|)] && |Slice(s, lo, hi)| > 0
  {
  }

  /** Past the last page, nothing is shown; this is what the clamp repairs. */
  lemma WindowBeyond<T>(events: seq<T>, page: int, per: nat)
    requires per > 0 && page > TotalPages(|events|, per)
    ensures Window(events, page, per) == []
  {
    PageAfter(page, per, |events|);
  }

  /** The first index of a page past the last is past the list's end. */
  lemma PageAfter(page: int, per: nat, count: nat)
    requires per > 0 && page > TotalPages(count, per)
    ensures page * per - per >= count
  {
    TotalPagesBounds(count, per);
    MulMono(TotalPages(count, per), page - 1, per);
    assert page * per - per == (page - 1) * per;
  }

  /** Pages 1 to `n` in order. */
  function Pages<T>(events: seq<T>, per: nat, n: nat): (r: seq<T>) {
    if n == 0 then [] else Pages(events, per, n - 1) + Window(events, n, per)
  }

  /** The first `n` pages hold the first `n * per` events. */
  lemma {:induction false} PagesPrefix<T>(events: seq<T>, per: nat, n: nat)
    requires per > 0 && n <= TotalPages(|events|, per)
    ensures Pages(events, per, n) == events[..Min(n * per, |events|)]
  {
    if n > 0 {
      PagesPrefix(events, per, n - 1);
      WindowOnPage(events, n, per);
      PageBefore(n, per, |events|);
      PrefixJoin(events, (n - 1) * per, Min(n * per, |events|));
    }
  }

  lemma PrefixJoin<T>(s: seq<T>, a: int, b: int)
    requires 0 <= a <= b <= |s|
    ensures Min(a, |s|) == a
    ensures s[..a] + s[a..b] == s[..b]
  {
  }

  /** Read one after another, the pages show every event exactly once, in
      order. */
  lemma PagesCover<T>(events: seq<T>, per: nat)
    requires per > 0
    ensures Pages(events, per, TotalPages(|events|, per)) == events
  {
    PagesPrefix(events, per, TotalPages(|events|, per));
    TotalPagesBounds(|events|, per);
    assert events[..|events|] == events;
  }

  // ---------------------------------------------------------------------------
  // Loading the events
  // ---------------------------------------------------------------------------

  /** A thrown value: an `Error` with its name and message, or anything else. */
  datatype Thrown = ErrorValue(name: string, message: string) | NotError

  /** The response body: parsed JSON with its optional `events`, a parse
      failure, or a body that never arrives (the abort timer is already cleared
      when `res.json()` is awaited, so nothing ends that wait). */
  datatype Body = Json(events: Option<seq<Event>>) | Unparsable(err: Thrown) | Stalled

  /** How `fetch` settles: a response, or a rejection (the ten-second abort
      rejects with an `AbortError`). */
  datatype Fetch = Responded(ok: bool, status: nat, body: Body) | Rejected(err: Thrown)

  const TimeoutText := "Request timed out. Please check your connection."
  const LoadFailedText := "Failed to load events"

  /** The message of the catch block. */
  function FetchErrorText(err: Thrown): (r: string)
    ensures r != []
    ensures err.ErrorValue? && err.name == "AbortError" ==> r == TimeoutText
    ensures err.ErrorValue? && err.name != "AbortError" && err.message != "" ==> r == err.message
    ensures err.NotError? || (err.name != "AbortError" && err.message == "") ==> r == LoadFailedText
  {
    match err
    case ErrorValue(name, message) =>
      if name == "AbortError" then TimeoutText
      else if message != "" then message
      else LoadFailedText
    case NotError => LoadFailedText
  }

  function Digit(d: nat): (c: char)
    requires d < 10
    ensures '0' <= c <= '9'
  {
    ('0' as int + d) as char
  }

  /** The decimal text of `n`, as a template literal writes it. */
  function NatText(n: nat): (r: string)
    ensures |r| > 0 && forall i :: 0 <= i < |r| ==> '0' <= r[i] <= '9'
  {
    if n < 10 then [Digit(n)] else NatText(n / 10) + [Digit(n % 10)]
  }

  /** The number a string of decimal digits denotes. */
  function DigitsValue(s: string): (r: nat)
    requires forall i :: 0 <= i < |s| ==> '0' <= s[i] <= '9'
  {
    if s == [] then 0 else 10 * DigitsValue(s[..|s| - 1]) + (s[|s| - 1] as int - '0' as int)
  }

  /** The text of `n` reads back as `n`, and has no leading zero unless it is "0". */
  lemma {:induction false} NatTextValue(n: nat)
    ensures DigitsValue(NatText(n)) == n
    ensures NatText(n)[0] == '0' ==> n == 0
  {
    if n >= 10 {
      NatTextValue(n / 10);
      var s := NatText(n);
      assert s[..|s| - 1] == NatText(n / 10);
      assert s[0] == NatText(n / 10)[0];
    }
  }

  /** The error thrown for a response that is not OK. */
  function StatusError(status: nat): (r: Thrown) {
    ErrorValue("Error", "Failed to fetch events: " + NatText(status))
  }

  /** What loading ends with: the events to show or the message to show; or it
      never ends. */
  datatype Load = Loaded(events: seq<Event>) | LoadFailed(message: string) | Pending

  /** `loadEvents`, from how `fetch` settles. */
  function LoadOf(f: Fetch): (r: Load)
    ensures r.LoadFailed? ==> r.message != []
    ensures f.Rejected? ==> r == LoadFailed(FetchErrorText(f.err))
    ensures f.Responded? && f.ok && f.body.Json? ==> r == Loaded(f.body.events.GetOr([]))
    ensures r.Pending? <==> f.Responded? && f.ok && f.body.Stalled?
  {
    match f
    case Rejected(err) => LoadFailed(FetchErrorText(err))
    case Responded(ok, status, body) =>
      if !ok then LoadFailed(FetchErrorText(StatusError(status)))
      else match body
        case Json(events) => Loaded(events.GetOr([]))
        case Unparsable(err) => LoadFailed(FetchErrorText(err))
        case Stalled => Pending
  }

  /** A response that is not OK shows its status code in the message. */
  lemma NotOkMessage(status: nat, body: Body)
    ensures LoadOf(Responded(false, status, body)) == LoadFailed("Failed to fetch events: " + NatText(status))
  {
    var m := "Failed to fetch events: " + NatText(status);
    assert m != [];
    assert "Error" != "AbortError";
  }

  // ---------------------------------------------------------------------------
  // The page's state
  // ---------------------------------------------------------------------------

  class Page {
    var currentPage: int
    var eventsPerPage: nat
    var is2XL: bool
    var events: seq<Event>
    var isLoading: bool
    var error: Option<string>

    /** The page size is always one the width can choose. */
    predicate Valid()
      reads this
    {
      eventsPerPage == 6 || eventsPerPage == 8
    }

    constructor ()
      ensures Valid()
      ensures currentPage == 1 && eventsPerPage == 6 && !is2XL && events == [] && isLoading && error == None
    {
      currentPage := 1;
      eventsPerPage := 6;
      is2XL := false;
      events := [];
      isLoading := true;
      error := None;
    }

    /** `totalPages` for the current state. */
    function TotalPagesNow(): (r: nat)
      reads this
      requires Valid()
    {
      TotalPages(|events|, eventsPerPage)
    }

    /** `currentEvents`: the window of the current page. */
    function CurrentEvents(): (r: seq<Event>)
      reads this
      requires Valid()
      ensures |r| <= eventsPerPage
      ensures 1 <= currentPage <= TotalPagesNow() ==> |r| > 0
      ensures currentPage > TotalPagesNow() ==> r == []
    {
      WindowAtMost(events, currentPage, eventsPerPage);
      if 1 <= currentPage <= TotalPagesNow() then
        WindowOnPage(events, currentPage, eventsPerPage);
        Window(events, currentPage, eventsPerPage)
      else if currentPage > TotalPagesNow() then
        WindowBeyond(events, currentPage, eventsPerPage);
        Window(events, currentPage, eventsPerPage)
      else
        Window(events, currentPage, eventsPerPage)
    }

    /** `checkScreenSize`: choose the flag and the page size from the width. */
    method CheckScreenSize(width: int)
      modifies this
      ensures Valid()
      ensures is2XL == (width >= 1536) && eventsPerPage == EventsPerPage(width)
      ensures currentPage == old(currentPage) && events == old(events)
      ensures isLoading == old(isLoading) && error == old(error)
    {
      var wide := width >= 1536;
      var per := if wide then 8 else 6;
      if is2XL != wide {
        is2XL := wide;
      }
      if eventsPerPage != per {
        eventsPerPage := per;
      }
    }

    /** The clamp effect. */
    method ClampPage()
      requires Valid()
      modifies this
      ensures Valid()
      ensures currentPage == Clamp(old(currentPage), TotalPagesNow())
      ensures eventsPerPage == old(eventsPerPage) && is2XL == old(is2XL) && events == old(events)
      ensures isLoading == old(isLoading) && error == old(error)
      ensures 1 <= old(currentPage) && events != [] ==> |CurrentEvents()| > 0
    {
      var total := TotalPages(|events|, eventsPerPage);
      if currentPage > total && total > 0 {
        currentPage := total;
      }
      TotalPagesBounds(|events|, eventsPerPage);
    }

    /** `handlePageChange`. */
    method HandlePageChange(pageNumber: int)
      modifies this
      ensures currentPage == pageNumber
      ensures eventsPerPage == old(eventsPerPage) && is2XL == old(is2XL) && events == old(events)
      ensures isLoading == old(isLoading) && error == old(error)
    {
      currentPage := pageNumber;
    }

    /** `loadEvents`, given how `fetch` settles and whether the page is still
        mounted then; an unmounted page keeps the loading flag and shows
        nothing, and so does a body that never arrives. */
    method LoadEvents(f: Fetch, mounted: bool)
      modifies this
      ensures mounted && !LoadOf(f).Pending? ==> !isLoading
      ensures LoadOf(f).Pending? ==> isLoading && error == None && events == old(events)
      ensures mounted && LoadOf(f).Loaded? ==> events == LoadOf(f).events && error == None
      ensures mounted && LoadOf(f).LoadFailed? ==> events == old(events) && error == Some(LoadOf(f).message)
      ensures !mounted ==> isLoading && error == None && events == old(events)
      ensures currentPage == old(currentPage) && eventsPerPage == old(eventsPerPage) && is2XL == old(is2XL)
    {
      isLoading := true;
      error := None;
      var thrown: Option<Thrown> := None;
      match f {
        case Rejected(err) =>
          thrown := Some(err);
        case Responded(ok, status, body) =>
          if !ok {
            thrown := Some(StatusError(status));
          } else {
            match body {
              case Unparsable(err) =>
                thrown := Some(err);
              case Stalled =>
                return;
              case Json(evs) =>
                if mounted {
                  events := evs.GetOr([]);
                }
            }
          }
      }
      if mounted && thrown.Some? {
        error := Some(FetchErrorText(thrown.value));
      }
      if mounted {
        isLoading := false;
      }
    }
  }
}
