/** The chat store: validation of a `chat:send` payload into an entry, and
    the bounded in-memory log that keeps the newest `MAX_HISTORY` entries. */
module ChatLog {
  import opened Wrappers
  import JsText

  const MAX_HISTORY: nat := 100
  const NAME_LIMIT: nat := 24
  const TEXT_LIMIT: nat := 300
  const DEFAULT_NAME: string := "Invitado"
  const DEFAULT_COLOR: string := "#e50914"

  /** A payload field as the server sees it: either a string, or any other
      JavaScript value (undefined, a number, an object, ...). */
  datatype Field = Str(s: string) | NotString

  /** A truthy `chat:send` payload. A falsy payload is `None` at the call
      site; a truthy value without the fields reads as all `NotString`. */
  datatype Payload = Payload(name: Field, color: Field, text: Field)

  /** The inputs the server takes from the clock and the random generator:
      `Date.now()` read for the id, the hexadecimal digits of
      `Math.random()` after the leading `0.`, and `Date.now()` read again
      for the timestamp. */
  datatype Stamp = Stamp(idClock: nat, randomHex: string, tsClock: nat)

  datatype Entry = Entry(id: string, name: string, color: string, text: string, ts: nat)

  /** The entry id: the clock in decimal, a dash, the random suffix. */
  function EntryId(stamp: Stamp): string
  {
    JsText.Decimal(stamp.idClock) + "-" + stamp.randomHex
  }

  /** The clock an entry id was made from is the number before its first dash. */
  lemma EntryIdCarriesClock(stamp: Stamp)
    ensures var head := JsText.BeforeDash(EntryId(stamp));
            && (forall i :: 0 <= i < |head| ==> JsText.IsDigit(head[i]))
            && JsText.ParseDecimal(head) == stamp.idClock
  {
    var d := JsText.Decimal(stamp.idClock);
    assert '-' !in d;
    JsText.BeforeDashOfJoin(d, stamp.randomHex);
    JsText.DecimalRoundTrip(stamp.idClock);
  }

  /** Whether the server accepts a submission: a payload is present, its
      text is a string, and the trimmed text is not empty. */
  predicate Acceptable(payload: Option<Payload>)
  {
    && payload.Some?
    && payload.value.text.Str?
    && JsText.Trim(payload.value.text.s) != []
  }

  /** The `chat:send` handler's validation and entry construction. A
      rejected submission yields `None`; an accepted one yields the entry
      that is stored and broadcast. */
  function Accept(payload: Option<Payload>, stamp: Stamp): (r: Option<Entry>)
    ensures r.Some? <==> Acceptable(payload)
    ensures r.Some? ==>
      var p := payload.value;
      && r.value.text == JsText.Prefix(JsText.Trim(p.text.s), TEXT_LIMIT)
      && r.value.text != []
      && |r.value.text| <= TEXT_LIMIT
      && r.value.name == (if p.name.Str? then JsText.Prefix(p.name.s, NAME_LIMIT) else DEFAULT_NAME)
      && |r.value.name| <= NAME_LIMIT
      && r.value.color == (if p.color.Str? then p.color.s else DEFAULT_COLOR)
      && r.value.id == EntryId(stamp)
      && r.value.ts == stamp.tsClock
  {
    match payload
    case None => None
    case Some(p) =>
      match p.text
      case NotString => None
      case Str(raw) =>
        var text := JsText.Trim(raw);
        if text == [] then None
        else
          var name := match p.name
            case Str(n) => JsText.Prefix(n, NAME_LIMIT)
            case NotString => DEFAULT_NAME;
          var color := match p.color
            case Str(c) => c
            case NotString => DEFAULT_COLOR;
          Some(Entry(EntryId(stamp), name, color, JsText.Prefix(text, TEXT_LIMIT), stamp.tsClock))
  }

  /** A string text is rejected exactly when it is only white space (or
      empty), whatever the other fields and the clock. */
  lemma BlankTextRejected(name: Field, color: Field, raw: string, stamp: Stamp)
    ensures Accept(Some(Payload(name, color, Str(raw))), stamp) == None <==> JsText.AllWhiteSpace(raw)
  {
  }

  /** `chatHistory.push(e)` followed by one `shift()` when the log has grown
      past `MAX_HISTORY`. The new entry is last; at most the single oldest
      entry is dropped; the survivors keep their order. */
  function Append(h: seq<Entry>, e: Entry): (r: seq<Entry>)
    ensures r != [] && r[|r| - 1] == e
    ensures |h| < MAX_HISTORY ==> r == h + [e]
    ensures |h| >= MAX_HISTORY ==> r == h[1..] + [e]
    ensures |h| <= MAX_HISTORY ==> |r| <= MAX_HISTORY
  {
    var pushed := h + [e];
    if |pushed| > MAX_HISTORY then pushed[1..] else pushed
  }

  /** Reference definition of what the log should hold: the newest
      `MAX_HISTORY` entries of everything ever appended, oldest first. */
  function Window(all: seq<Entry>): (r: seq<Entry>)
    ensures |r| <= MAX_HISTORY
    ensures |all| <= MAX_HISTORY ==> r == all
    ensures |all| > MAX_HISTORY ==> |r| == MAX_HISTORY
  {
    if |all| > MAX_HISTORY then all[|all| - MAX_HISTORY..] else all
  }

  /** The window is a suffix of everything appended: the newest entries,
      in their original order. */
  lemma WindowIsNewestSuffix(all: seq<Entry>)
    ensures Window(all) == all[|all| - |Window(all)|..]
  {
  }

  /** A log within the bound, appended to, is the window of its contents
      plus the new entry. */
  lemma AppendIsWindow(h: seq<Entry>, e: Entry)
    requires |h| <= MAX_HISTORY
    ensures Append(h, e) == Window(h + [e])
  {
  }

  /** Once at least `MAX_HISTORY` entries follow, what came before them
      does not matter to the window. */
  lemma WindowOfLongTail(p: seq<Entry>, q: seq<Entry>)
    requires |q| >= MAX_HISTORY
    ensures Window(p + q) == Window(q)
  {
    assert (p + q)[|p + q| - MAX_HISTORY..] == q[|q| - MAX_HISTORY..];
  }

  /** Taking the window early does not change the window of a longer log. */
  lemma WindowOfWindow(a: seq<Entry>, b: seq<Entry>)
    ensures Window(Window(a) + b) == Window(a + b)
  {
    if |a| > MAX_HISTORY {
      var w := Window(a);
      var p := a[..|a| - MAX_HISTORY];
      assert a == p + w;
      assert a + b == p + (w + b);
      WindowOfLongTail(p, w + b);
    }
  }

  /** Appending a sequence of entries one at a time. */
  function AppendAll(h: seq<Entry>, es: seq<Entry>): seq<Entry>
    decreases |es|
  {
    if es == [] then h else AppendAll(Append(h, es[0]), es[1..])
  }

  /** Starting from a log within the bound, appending any number of entries
      leaves the newest `MAX_HISTORY` of the old log followed by them, in
      their original order. */
  lemma {:induction false} AppendAllIsWindow(h: seq<Entry>, es: seq<Entry>)
    requires |h| <= MAX_HISTORY
    ensures AppendAll(h, es) == Window(h + es)
    decreases |es|
  {
    if es == [] {
      assert h + es == h;
    } else {
      var h' := Append(h, es[0]);
      AppendIsWindow(h, es[0]);
      AppendAllIsWindow(h', es[1..]);
      WindowOfWindow(h + [es[0]], es[1..]);
      assert h + [es[0]] + es[1..] == h + es;
      calc {
        AppendAll(h, es);
        AppendAll(h', es[1..]);
        Window(h' + es[1..]);
        Window(Window(h + [es[0]]) + es[1..]);
        Window(h + [es[0]] + es[1..]);
      }
    }
  }

  /** The MAX_HISTORY + 1 case: after 101 submissions into an empty log,
      exactly the first one is gone and the other 100 remain in order. */
  lemma HundredAndOneAppends(es: seq<Entry>)
    requires |es| == MAX_HISTORY + 1
    ensures AppendAll([], es) == es[1..]
  {
    AppendAllIsWindow([], es);
    assert [] + es == es;
  }

  /** A log loaded from disk with more than `MAX_HISTORY` entries is never
      brought back under the bound: each append drops only one entry. */
  lemma OversizedLogKeepsLength(h: seq<Entry>, e: Entry)
    requires |h| > MAX_HISTORY
    ensures |Append(h, e)| == |h|
  {
  }

  /** What the history file yields at start-up. */
  datatype StoredFile = Missing | Malformed | Parsed(entries: seq<Entry>)

  /** The log at start-up: the parsed file, or empty when the file is
      missing or cannot be parsed. */
  function LoadHistory(f: StoredFile): (h: seq<Entry>)
    ensures f.Parsed? ==> h == f.entries
    ensures !f.Parsed? ==> h == []
  {
    match f
    case Parsed(es) => es
    case _ => []
  }
}
