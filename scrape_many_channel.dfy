/**
 * The multi-channel Telegram scraper: the cursor loop that pages through a
 * channel's history newest-first and keeps the text-bearing messages, and the
 * driver that skips channels whose output file exists and records every
 * processed channel in a checkpoint file.
 *
 * The Telegram client is a `Backend` function of the request number, the cursor
 * (`offset_id`) and the page size; the request number lets it fail on some
 * attempts and answer on others. The retry loop of the source has no bound, so
 * the model carries `fuel`: the number of history requests it may still make.
 */
module ScrapeManyChannel {
  import opened Wrappers
  import Seqs

  /** A history entry as Telegram returns it; `text` is absent for media-only messages. */
  datatype RawMessage = RawMessage(id: int, date: int, text: Option<string>)

  /** A saved record `{id, date, text}`; `date` is the message's UTC instant. */
  datatype Record = Record(id: int, date: int, text: string)

  /** The answer to one history request: an exception, or a page of messages. */
  datatype Response = Failure | Page(messages: seq<RawMessage>)

  /** The history request: (request number, offset_id, limit) to its response. */
  type Backend = (nat, int, nat) -> Response

  /** How a page loop ends: with the collected records, or still retrying when the fuel ran out. */
  datatype Outcome = Finished(records: seq<Record>) | OutOfFuel

  const DefaultMaxMessages: nat := 100000
  const DefaultBatchSize: nat := 200

  /** `getattr(message, "message", None)` is truthy: the message has non-empty text. */
  predicate HasText(m: RawMessage) {
    m.text.Some? && m.text.value != ""
  }

  function ToRecord(m: RawMessage): Record
    requires HasText(m)
  {
    Record(m.id, m.date, m.text.value)
  }

  /** The records of all text-bearing messages of `msgs`, in page order. */
  function Texts(msgs: seq<RawMessage>): (r: seq<Record>)
    ensures |r| <= |msgs|
    ensures forall k :: 0 <= k < |r| ==> r[k].text != ""
  {
    if msgs == [] then []
    else (if HasText(msgs[0]) then [ToRecord(msgs[0])] else []) + Texts(msgs[1..])
  }

  lemma {:induction false} TextsAppend(a: seq<RawMessage>, b: seq<RawMessage>)
    ensures Texts(a + b) == Texts(a) + Texts(b)
    decreases |a|
  {
    if a == [] {
      assert a + b == b;
    } else {
      assert (a + b)[0] == a[0];
      assert (a + b)[1..] == a[1..] + b;
      TextsAppend(a[1..], b);
    }
  }

  /** One page only appends to the records held. */
  lemma {:induction false} TakeTextsExtends(msgs: seq<RawMessage>, acc: seq<Record>, max: nat)
    ensures acc <= TakeTexts(msgs, acc, max)
    decreases |msgs|
  {
    if msgs != [] {
      if HasText(msgs[0]) {
        var grown := acc + [ToRecord(msgs[0])];
        if |grown| < max {
          TakeTextsExtends(msgs[1..], grown, max);
        }
      } else {
        TakeTextsExtends(msgs[1..], acc, max);
      }
    }
  }

  /** The first `n` elements of `s`, or all of `s` when it is shorter. */
  function Prefix<T>(s: seq<T>, n: nat): (r: seq<T>)
    ensures |r| == if |s| <= n then |s| else n
  {
    if |s| <= n then s else s[..n]
  }

  /**
   * The inner `for` loop over one page: text-bearing messages are appended to
   * `acc` until it holds `max` records. Below the cap, the result is `acc`
   * followed by as many of the page's text records as still fit.
   */
  function TakeTexts(msgs: seq<RawMessage>, acc: seq<Record>, max: nat): (r: seq<Record>)
    ensures |acc| < max ==> |r| <= max
    decreases |msgs|
  {
    if msgs == [] then acc
    else if HasText(msgs[0]) then
      var grown := acc + [ToRecord(msgs[0])];
      if |grown| >= max then grown else TakeTexts(msgs[1..], grown, max)
    else TakeTexts(msgs[1..], acc, max)
  }

  /** Below the cap, a page adds exactly as many of its text records, in order, as still fit. */
  lemma {:induction false} TakeTextsFits(msgs: seq<RawMessage>, acc: seq<Record>, max: nat)
    requires |acc| < max
    ensures TakeTexts(msgs, acc, max) == acc + Prefix(Texts(msgs), max - |acc|)
    decreases |msgs|
  {
    if msgs == [] {
    } else if !HasText(msgs[0]) {
      TakeTextsFits(msgs[1..], acc, max);
      FitsSkip(msgs, acc, max);
    } else if |acc| + 1 >= max {
      FitsLast(msgs, acc, max);
    } else {
      TakeTextsFits(msgs[1..], acc + [ToRecord(msgs[0])], max);
      FitsKeep(msgs, acc, max);
    }
  }

  /** A message without text adds nothing and is passed over. */
  lemma {:induction false} FitsSkip(msgs: seq<RawMessage>, acc: seq<Record>, max: nat)
    requires msgs != [] && !HasText(msgs[0]) && |acc| < max
    requires TakeTexts(msgs[1..], acc, max) == acc + Prefix(Texts(msgs[1..]), max - |acc|)
    ensures TakeTexts(msgs, acc, max) == acc + Prefix(Texts(msgs), max - |acc|)
  {
    assert Texts(msgs) == Texts(msgs[1..]);
  }

  /** A text record that reaches the cap is the last one taken. */
  lemma {:induction false} FitsLast(msgs: seq<RawMessage>, acc: seq<Record>, max: nat)
    requires msgs != [] && HasText(msgs[0]) && |acc| < max <= |acc| + 1
    ensures TakeTexts(msgs, acc, max) == acc + Prefix(Texts(msgs), max - |acc|)
  {
    var x := ToRecord(msgs[0]);
    assert Texts(msgs) == [x] + Texts(msgs[1..]);
    PrefixCons(x, Texts(msgs[1..]), 1);
    assert Prefix(Texts(msgs[1..]), 0) == [];
  }

  /** A text record below the cap is taken and the rest of the page follows it. */
  lemma {:induction false} FitsKeep(msgs: seq<RawMessage>, acc: seq<Record>, max: nat)
    requires msgs != [] && HasText(msgs[0]) && |acc| + 1 < max
    requires var grown := acc + [ToRecord(msgs[0])];
      TakeTexts(msgs[1..], grown, max) == grown + Prefix(Texts(msgs[1..]), max - |grown|)
    ensures TakeTexts(msgs, acc, max) == acc + Prefix(Texts(msgs), max - |acc|)
  {
    var x := ToRecord(msgs[0]);
    var t := Texts(msgs[1..]);
    var n: nat := max - |acc|;
    assert Texts(msgs) == [x] + t;
    PrefixCons(x, t, n);
    calc {
      TakeTexts(msgs, acc, max);
      TakeTexts(msgs[1..], acc + [x], max);
      (acc + [x]) + Prefix(t, n - 1);
      { Seqs.SeqAssoc(acc, [x], Prefix(t, n - 1)); }
      acc + ([x] + Prefix(t, n - 1));
      acc + Prefix(Texts(msgs), n);
    }
  }

  lemma {:induction false} PrefixOfLonger<T>(a: seq<T>, b: seq<T>, n: nat)
    requires |a| >= n
    ensures Prefix(a + b, n) == Prefix(a, n)
  {
    assert (a + b)[..n] == a[..n];
  }

  lemma {:induction false} PrefixCons<T>(x: T, t: seq<T>, n: nat)
    requires n >= 1
    ensures Prefix([x] + t, n) == [x] + Prefix(t, n - 1)
  {
    if |t| + 1 > n {
      assert ([x] + t)[..n] == [x] + t[..n - 1];
    }
  }

  /**
   * The `while total_scraped < max_messages` loop of `scrape_channel` from a
   * given state: request a page at the cursor; retry a failed request with the
   * cursor and records unchanged; stop on an empty page; otherwise keep the
   * page's text records and move the cursor to the id of the page's last raw
   * message, whether or not it had text.
   */
  function Collect(fetch: Backend, attempt: nat, offset: int, acc: seq<Record>, max: nat, batch: nat, fuel: nat): (o: Outcome)
    ensures o.Finished? && |acc| <= max ==> |o.records| <= max
    ensures o.Finished? && |o.records| < max ==> fuel > 0 || o.records == acc
    decreases fuel
  {
    if |acc| >= max then Finished(acc)
    else if fuel == 0 then OutOfFuel
    else match fetch(attempt, offset, batch)
      case Failure => Collect(fetch, attempt + 1, offset, acc, max, batch, fuel - 1)
      case Page(msgs) =>
        if msgs == [] then Finished(acc)
        else Collect(fetch, attempt + 1, msgs[|msgs| - 1].id, TakeTexts(msgs, acc, max), max, batch, fuel - 1)
  }

  /** The loop only appends: the records it finishes with start with the records it started from. */
  lemma {:induction false} CollectExtends(fetch: Backend, attempt: nat, offset: int, acc: seq<Record>, max: nat, batch: nat, fuel: nat)
    ensures Collect(fetch, attempt, offset, acc, max, batch, fuel).Finished? ==> acc <= Collect(fetch, attempt, offset, acc, max, batch, fuel).records
    decreases fuel
  {
    if |acc| < max && fuel > 0 {
      match fetch(attempt, offset, batch)
      case Failure =>
        CollectExtends(fetch, attempt + 1, offset, acc, max, batch, fuel - 1);
      case Page(msgs) =>
        if msgs != [] {
          var next := TakeTexts(msgs, acc, max);
          TakeTextsExtends(msgs, acc, max);
          CollectExtends(fetch, attempt + 1, msgs[|msgs| - 1].id, next, max, batch, fuel - 1);
        }
    }
  }

  /** The `for message in history.messages` loop: append text records, stopping once `max` are held. */
  method TakePage(msgs: seq<RawMessage>, acc: seq<Record>, max: nat) returns (all: seq<Record>)
    ensures all == TakeTexts(msgs, acc, max)
  {
    all := acc;
    var i := 0;
    while i < |msgs|
      invariant 0 <= i <= |msgs|
      invariant TakeTexts(msgs, acc, max) == TakeTexts(msgs[i..], all, max)
    {
      assert msgs[i..][0] == msgs[i] && msgs[i..][1..] == msgs[i + 1..];
      if HasText(msgs[i]) {
        all := all + [ToRecord(msgs[i])];
        if |all| >= max {
          return;
        }
      }
      i := i + 1;
    }
  }

  /**
   * The page loop of `scrape_channel`. It
   * computes exactly what `Collect` describes from the initial state: no
   * records, cursor 0, first request.
   */
  method CollectMessages(fetch: Backend, max: nat, batch: nat, fuel: nat) returns (o: Outcome)
    ensures o == Collect(fetch, 0, 0, [], max, batch, fuel)
  {
    var all: seq<Record> := [];
    var offset := 0;
    var total := 0;
    var attempt := 0;
    var left := fuel;
    var ended := false;
    while total < max && !ended
      invariant total == |all|
      invariant ended ==> Collect(fetch, 0, 0, [], max, batch, fuel) == Finished(all)
      invariant !ended ==> Collect(fetch, 0, 0, [], max, batch, fuel) == Collect(fetch, attempt, offset, all, max, batch, left)
      decreases left, if ended then 0 else 1
    {
      if left == 0 {
        return OutOfFuel;
      }
      var response := fetch(attempt, offset, batch);
      left, attempt := left - 1, attempt + 1;
      match response
      case Failure =>
      case Page(msgs) =>
        if msgs == [] {
          ended := true;
        } else {
          all := TakePage(msgs, all, max);
          offset := msgs[|msgs| - 1].id;
          total := |all|;
        }
    }
    return Finished(all);
  }

  /** One step of `Collect` on a non-empty page. */
  lemma {:induction false} CollectPage(fetch: Backend, attempt: nat, offset: int, acc: seq<Record>, max: nat, batch: nat, fuel: nat, msgs: seq<RawMessage>)
    requires |acc| < max && fuel >= 1 && msgs != []
    requires fetch(attempt, offset, batch) == Page(msgs)
    ensures Collect(fetch, attempt, offset, acc, max, batch, fuel)
         == Collect(fetch, attempt + 1, msgs[|msgs| - 1].id, TakeTexts(msgs, acc, max), max, batch, fuel - 1)
  {
  }

  /** One step of `Collect` on a failed request: the same cursor and records, one request later. */
  lemma {:induction false} CollectRetry(fetch: Backend, attempt: nat, offset: int, acc: seq<Record>, max: nat, batch: nat, fuel: nat)
    requires |acc| < max && fuel >= 1
    requires fetch(attempt, offset, batch) == Failure
    ensures Collect(fetch, attempt, offset, acc, max, batch, fuel)
         == Collect(fetch, attempt + 1, offset, acc, max, batch, fuel - 1)
  {
  }

  /** `Collect` on an empty page: the records held so far. */
  lemma {:induction false} CollectEnd(fetch: Backend, attempt: nat, offset: int, acc: seq<Record>, max: nat, batch: nat, fuel: nat)
    requires |acc| < max && fuel >= 1
    requires fetch(attempt, offset, batch) == Page([])
    ensures Collect(fetch, attempt, offset, acc, max, batch, fuel) == Finished(acc)
  {
  }

  /** A backend that always fails keeps the loop retrying until the fuel runs out: nothing is saved. */
  lemma {:induction false} AlwaysFailingNeverFinishes(fetch: Backend, attempt: nat, offset: int, acc: seq<Record>, max: nat, batch: nat, fuel: nat)
    requires forall a: nat :: fetch(a, offset, batch) == Failure
    requires |acc| < max
    ensures Collect(fetch, attempt, offset, acc, max, batch, fuel) == OutOfFuel
    decreases fuel
  {
    if fuel > 0 {
      AlwaysFailingNeverFinishes(fetch, attempt + 1, offset, acc, max, batch, fuel - 1);
    }
  }

  // ----- A channel history served newest-first -----

  /** Telegram message ids are positive and a channel's history is served newest (largest id) first. */
  ghost predicate NewestFirst(h: seq<RawMessage>) {
    (forall k :: 0 <= k < |h| ==> h[k].id >= 1)
    && (forall a, b :: 0 <= a < b < |h| ==> h[a].id > h[b].id)
  }

  /** The messages a request with this `offset_id` starts from: all of them for 0, else the older ones. */
  function Older(h: seq<RawMessage>, offset: int): seq<RawMessage> {
    if offset == 0 then h else Seqs.Filter(h, (m: RawMessage) => m.id < offset)
  }

  /** The page a faithful server returns: at most `limit` messages, starting below the cursor. */
  function HistoryPage(h: seq<RawMessage>, offset: int, limit: nat): Response {
    Page(Prefix(Older(h, offset), limit))
  }

  /** Every request is either answered from history `h` or fails. */
  ghost predicate Serves(fetch: Backend, h: seq<RawMessage>) {
    forall a: nat, off: int, lim: nat :: fetch(a, off, lim) == Failure || fetch(a, off, lim) == HistoryPage(h, off, lim)
  }

  /** Every request is answered from history `h`. */
  ghost predicate Reliable(fetch: Backend, h: seq<RawMessage>) {
    forall a: nat, off: int, lim: nat :: fetch(a, off, lim) == HistoryPage(h, off, lim)
  }

  /** The cursor after the first `j` messages of `h` were paged through. */
  function Cursor(h: seq<RawMessage>, j: nat): int
    requires j <= |h|
  {
    if j == 0 then 0 else h[j - 1].id
  }

  /** Below the id of message `j - 1` lie exactly the messages from `j` on. */
  lemma {:induction false} OlderAfter(h: seq<RawMessage>, j: nat)
    requires NewestFirst(h) && 1 <= j <= |h|
    ensures Older(h, h[j - 1].id) == h[j..]
  {
    var p := (m: RawMessage) => m.id < h[j - 1].id;
    assert h == h[..j] + h[j..];
    Seqs.FilterAppend(h[..j], h[j..], p);
    Seqs.FilterKeepsAll(h[j..], p);
    Seqs.FilterNone(h[..j], p);
  }

  lemma {:induction false} OlderFrom(h: seq<RawMessage>, j: nat)
    requires NewestFirst(h) && j <= |h|
    ensures Older(h, Cursor(h, j)) == h[j..]
  {
    if j > 0 { OlderAfter(h, j); }
  }

  /** The text records of a history split at `j` and `k`. */
  lemma {:induction false} TextsSplit(h: seq<RawMessage>, j: nat, k: nat)
    requires j <= k <= |h|
    ensures Texts(h[..k]) == Texts(h[..j]) + Texts(h[j..k])
    ensures Texts(h) == Texts(h[..k]) + Texts(h[k..])
  {
    assert h[..k] == h[..j] + h[j..k];
    TextsAppend(h[..j], h[j..k]);
    assert h == h[..k] + h[k..];
    TextsAppend(h[..k], h[k..]);
  }

  /** One page served from position `j`: what it holds and where the records and cursor stand after it. */
  lemma {:induction false} PageStep(h: seq<RawMessage>, j: nat, acc: seq<Record>, max: nat, batch: nat)
    requires batch >= 1
    requires j < |h| && acc == Texts(h[..j]) && |acc| < max
    ensures var page := Prefix(h[j..], batch);
      var k := j + |page|;
      var next := TakeTexts(page, acc, max);
      j < k <= |h| && page != [] && page[|page| - 1].id == Cursor(h, k)
      && (|Texts(h[..k])| >= max ==> |next| == max && next == Prefix(Texts(h), max))
      && (|Texts(h[..k])| < max ==> next == Texts(h[..k]))
  {
    var page := Prefix(h[j..], batch);
    var k := j + |page|;
    assert page == h[j..k];
    var tp := Texts(page);
    TakeTextsFits(page, acc, max);
    TextsSplit(h, j, k);
    var next := acc + Prefix(tp, max - |acc|);
    if |acc + tp| >= max {
      assert Prefix(Texts(h), max) == next by {
        PrefixOfLonger(acc + tp, Texts(h[k..]), max);
        PrefixAppend(acc, tp, max);
      }
    }
  }

  lemma {:induction false} PrefixAppend<T>(a: seq<T>, b: seq<T>, n: nat)
    requires |a| <= n
    ensures Prefix(a + b, n) == a + Prefix(b, n - |a|)
  {
    if |a + b| > n {
      assert (a + b)[..n] == a + b[..n - |a|];
    }
  }

  /** Where the next page starts after a page requested at position `j`. */
  function NextPos(h: seq<RawMessage>, j: nat, batch: nat): (k: nat)
    requires j <= |h|
    ensures j <= k <= |h|
    ensures batch >= 1 && j < |h| ==> j < k
  {
    j + |Prefix(h[j..], batch)|
  }

  /**
   * A served page at position `j` below the cap: the loop either reaches the
   * cap with the first `max` text records of the history, or holds the text
   * records up to the next position and continues there.
   */
  lemma {:induction false} ServedStep(fetch: Backend, h: seq<RawMessage>, j: nat, attempt: nat, acc: seq<Record>, max: nat, batch: nat, fuel: nat)
    requires batch >= 1 && fuel >= 1
    requires j < |h| && acc == Texts(h[..j]) && |acc| < max
    requires fetch(attempt, Cursor(h, j), batch) == Page(Prefix(h[j..], batch))
    ensures var k := NextPos(h, j, batch);
      var o := Collect(fetch, attempt, Cursor(h, j), acc, max, batch, fuel);
      if |Texts(h[..k])| < max then o == Collect(fetch, attempt + 1, Cursor(h, k), Texts(h[..k]), max, batch, fuel - 1)
      else o == Finished(Prefix(Texts(h), max))
  {
    var cursor := Cursor(h, j);
    var page := Prefix(h[j..], batch);
    var k := j + |page|;
    assert NextPos(h, j, batch) == k;
    PageStep(h, j, acc, max, batch);
    var next := TakeTexts(page, acc, max);
    CollectPage(fetch, attempt, cursor, acc, max, batch, fuel, page);
    assert page[|page| - 1].id == Cursor(h, k);
    var o := Collect(fetch, attempt, cursor, acc, max, batch, fuel);
    assert o == Collect(fetch, attempt + 1, Cursor(h, k), next, max, batch, fuel - 1);
    if |Texts(h[..k])| >= max {
      assert o == Finished(Prefix(Texts(h), max)) by {
        CollectCapped(fetch, attempt + 1, Cursor(h, k), next, max, batch, fuel - 1);
      }
    } else {
      assert next == Texts(h[..k]);
    }
  }

  /** `Collect` once the cap is reached: the records held. */
  lemma {:induction false} CollectCapped(fetch: Backend, attempt: nat, offset: int, acc: seq<Record>, max: nat, batch: nat, fuel: nat)
    requires |acc| >= max
    ensures Collect(fetch, attempt, offset, acc, max, batch, fuel) == Finished(acc)
  {
  }

  /** The request at the cursor of position `j` either fails or returns the next `batch` messages from `j` on. */
  ghost predicate ServedAt(fetch: Backend, h: seq<RawMessage>, batch: nat, a: nat, j: nat)
    requires j <= |h|
  {
    fetch(a, Cursor(h, j), batch) == Failure || fetch(a, Cursor(h, j), batch) == Page(Prefix(h[j..], batch))
  }

  /** The request at the cursor of position `j` returns the next `batch` messages from `j` on. */
  ghost predicate AnsweredAt(fetch: Backend, h: seq<RawMessage>, batch: nat, a: nat, j: nat)
    requires j <= |h|
  {
    fetch(a, Cursor(h, j), batch) == Page(Prefix(h[j..], batch))
  }

  /** At the cursor of every position of the history, every request is served. */
  ghost predicate ServesAtCursors(fetch: Backend, h: seq<RawMessage>, batch: nat) {
    forall a: nat, j: nat :: j <= |h| ==> ServedAt(fetch, h, batch, a, j)
  }

  /** At the cursor of every position of the history, every request is answered. */
  ghost predicate AnswersAtCursors(fetch: Backend, h: seq<RawMessage>, batch: nat) {
    forall a: nat, j: nat :: j <= |h| ==> AnsweredAt(fetch, h, batch, a, j)
  }

  /** Answering from a newest-first history means answering from the right place at every cursor. */
  lemma {:induction false} ServesAtCursorsFromHistory(fetch: Backend, h: seq<RawMessage>, batch: nat)
    requires NewestFirst(h)
    ensures Serves(fetch, h) ==> ServesAtCursors(fetch, h, batch)
    ensures Reliable(fetch, h) ==> AnswersAtCursors(fetch, h, batch)
  {
    forall a: nat, j: nat | j <= |h|
      ensures Serves(fetch, h) ==> ServedAt(fetch, h, batch, a, j)
      ensures Reliable(fetch, h) ==> AnsweredAt(fetch, h, batch, a, j)
    {
      OlderFrom(h, j);
    }
  }

  /**
   * One request at the cursor of position `j`, below the cap: a failure leaves
   * the position as it was, and a served page either ends the loop with the
   * first `max` text records or moves on to the next position.
   */
  lemma {:induction false} StepAt(fetch: Backend, h: seq<RawMessage>, j: nat, attempt: nat, acc: seq<Record>, max: nat, batch: nat, fuel: nat)
    requires batch >= 1 && fuel >= 1
    requires j <= |h| && acc == Texts(h[..j]) && |acc| < max
    requires ServedAt(fetch, h, batch, attempt, j)
    ensures var o := Collect(fetch, attempt, Cursor(h, j), acc, max, batch, fuel);
      var k := NextPos(h, j, batch);
      if fetch(attempt, Cursor(h, j), batch) == Failure then
        o == Collect(fetch, attempt + 1, Cursor(h, j), acc, max, batch, fuel - 1)
      else
        o == Finished(Prefix(Texts(h), max))
        || (j < k && |Texts(h[..k])| < max && o == Collect(fetch, attempt + 1, Cursor(h, k), Texts(h[..k]), max, batch, fuel - 1))
  {
    var cursor := Cursor(h, j);
    if fetch(attempt, cursor, batch) == Failure {
      CollectRetry(fetch, attempt, cursor, acc, max, batch, fuel);
    } else if j == |h| {
      assert h[..j] == h;
      EndOfHistory(fetch, h, attempt, acc, max, batch, fuel);
    } else {
      ServedStep(fetch, h, j, attempt, acc, max, batch, fuel);
    }
  }

  /**
   * The loop started at the cursor of position `j`, holding the text records
   * of everything before `j`, either runs out of requests or ends with the
   * first `max` text records of the history.
   */
  ghost predicate SettlesFrom(fetch: Backend, h: seq<RawMessage>, j: nat, attempt: nat, max: nat, batch: nat, fuel: nat)
    requires j <= |h|
  {
    match Collect(fetch, attempt, Cursor(h, j), Texts(h[..j]), max, batch, fuel)
    case OutOfFuel => true
    case Finished(records) => records == Prefix(Texts(h), max)
  }

  /** The loop started so at position `j` ends with the first `max` text records of the history. */
  ghost predicate FinishesFrom(fetch: Backend, h: seq<RawMessage>, j: nat, attempt: nat, max: nat, batch: nat, fuel: nat)
    requires j <= |h|
  {
    match Collect(fetch, attempt, Cursor(h, j), Texts(h[..j]), max, batch, fuel)
    case OutOfFuel => false
    case Finished(records) => records == Prefix(Texts(h), max)
  }

  /** `SettlesFrom` carries back over one request from where the loop stands after it. */
  lemma {:induction false} SettlesStep(fetch: Backend, h: seq<RawMessage>, j: nat, attempt: nat, max: nat, batch: nat, fuel: nat)
    requires batch >= 1 && fuel >= 1
    requires j <= |h| && |Texts(h[..j])| < max
    requires ServesAtCursors(fetch, h, batch)
    ensures var k := NextPos(h, j, batch);
      SettlesFrom(fetch, h, j, attempt + 1, max, batch, fuel - 1)
      && (j < k && |Texts(h[..k])| < max ==> SettlesFrom(fetch, h, k, attempt + 1, max, batch, fuel - 1))
      ==> SettlesFrom(fetch, h, j, attempt, max, batch, fuel)
  {
    assert ServedAt(fetch, h, batch, attempt, j);
    StepAt(fetch, h, j, attempt, Texts(h[..j]), max, batch, fuel);
  }

  /** Against a server that answers, `FinishesFrom` carries back over one request. */
  lemma {:induction false} FinishesStep(fetch: Backend, h: seq<RawMessage>, j: nat, attempt: nat, max: nat, batch: nat, fuel: nat)
    requires batch >= 1 && fuel >= 1
    requires j <= |h| && |Texts(h[..j])| < max
    requires AnswersAtCursors(fetch, h, batch)
    ensures var k := NextPos(h, j, batch);
      (j < k && |Texts(h[..k])| < max ==> FinishesFrom(fetch, h, k, attempt + 1, max, batch, fuel - 1))
      ==> FinishesFrom(fetch, h, j, attempt, max, batch, fuel)
  {
    assert AnsweredAt(fetch, h, batch, attempt, j);
    StepAt(fetch, h, j, attempt, Texts(h[..j]), max, batch, fuel);
  }

  /**
   * Scraping a channel from position `j` of its history, with the text records
   * of everything before `j` already held, against a server that answers from
   * that history or fails: failures never corrupt the result, which is the
   * first `max` text records of the whole history, in order.
   */
  lemma {:induction false} CollectHistoryFrom(fetch: Backend, h: seq<RawMessage>, j: nat, attempt: nat, max: nat, batch: nat, fuel: nat)
    requires ServesAtCursors(fetch, h, batch) && batch >= 1
    requires j <= |h| && |Texts(h[..j])| < max
    ensures SettlesFrom(fetch, h, j, attempt, max, batch, fuel)
    decreases fuel
  {
    if fuel == 0 {
      return;
    }
    CollectHistoryFrom(fetch, h, j, attempt + 1, max, batch, fuel - 1);
    var k := NextPos(h, j, batch);
    if j < k && |Texts(h[..k])| < max {
      CollectHistoryFrom(fetch, h, k, attempt + 1, max, batch, fuel - 1);
    }
    SettlesStep(fetch, h, j, attempt, max, batch, fuel);
  }

  /** A served request past the end of the history ends the loop with every text record. */
  lemma {:induction false} EndOfHistory(fetch: Backend, h: seq<RawMessage>, attempt: nat, acc: seq<Record>, max: nat, batch: nat, fuel: nat)
    requires fuel >= 1
    requires acc == Texts(h) && |acc| < max
    requires fetch(attempt, Cursor(h, |h|), batch) == Page(Prefix(h[|h|..], batch))
    ensures Collect(fetch, attempt, Cursor(h, |h|), acc, max, batch, fuel) == Finished(Prefix(Texts(h), max))
  {
    assert h[|h|..] == [];
    CollectEnd(fetch, attempt, Cursor(h, |h|), acc, max, batch, fuel);
  }

  /**
   * Against a server that never fails, the loop finishes with the first `max`
   * text records of the history once the fuel covers one request per
   * remaining message plus the final empty page.
   */
  lemma {:induction false} CollectHistoryLiveFrom(fetch: Backend, h: seq<RawMessage>, j: nat, attempt: nat, max: nat, batch: nat, fuel: nat)
    requires AnswersAtCursors(fetch, h, batch) && batch >= 1
    requires j <= |h| && |Texts(h[..j])| < max
    requires fuel > |h| - j
    ensures FinishesFrom(fetch, h, j, attempt, max, batch, fuel)
    decreases fuel
  {
    var k := NextPos(h, j, batch);
    if j < k && |Texts(h[..k])| < max {
      CollectHistoryLiveFrom(fetch, h, k, attempt + 1, max, batch, fuel - 1);
    }
    FinishesStep(fetch, h, j, attempt, max, batch, fuel);
  }

  /**
   * The whole loop of `scrape_channel` against a channel history: it ends
   * still retrying or with the first `max` text records, in history order;
   * when no request fails and enough requests are allowed, it ends with them.
   */
  lemma {:induction false} CollectHistory(fetch: Backend, h: seq<RawMessage>, max: nat, batch: nat, fuel: nat)
    requires NewestFirst(h) && Serves(fetch, h) && batch >= 1 && max >= 1
    ensures var o := Collect(fetch, 0, 0, [], max, batch, fuel);
      o == OutOfFuel || o == Finished(Prefix(Texts(h), max))
    ensures Reliable(fetch, h) && fuel > |h| ==> Collect(fetch, 0, 0, [], max, batch, fuel) == Finished(Prefix(Texts(h), max))
  {
    assert h[..0] == [];
    ServesAtCursorsFromHistory(fetch, h, batch);
    CollectHistoryFrom(fetch, h, 0, 0, max, batch, fuel);
    if Reliable(fetch, h) && fuel > |h| {
      CollectHistoryLiveFrom(fetch, h, 0, 0, max, batch, fuel);
    }
  }

  // ----- The data directory and the driver -----

  /** What a file of the data directory holds, as `json.load` would read it. */
  datatype Content = RecordsFile(records: seq<Record>) | CheckpointFile(completed: seq<string>) | Unreadable

  const CheckpointName: string := "scrape_checkpoint.json"
  const Channels: seq<string> := ["lebanondebate", "Lebanon_24", "sadadahiechannel"]

  /** `<data>/<channel>.json`. */
  function OutputName(channel: string): (name: string)
    ensures |name| == |channel| + 5 && name[..|channel|] == channel
  {
    channel + ".json"
  }

  lemma {:induction false} OutputNameInjective(a: string, b: string)
    requires OutputName(a) == OutputName(b)
    ensures a == b
  {
    assert a == OutputName(a)[..|a|];
  }

  /** The test of the skip filter: the channel's output file is missing. */
  function Unscraped(files: map<string, Content>): string -> bool {
    (ch: string) => OutputName(ch) !in files
  }

  /** The channels whose output file does not exist yet, in the configured order. */
  function Pending(files: map<string, Content>, channels: seq<string>): seq<string> {
    Seqs.Filter(channels, Unscraped(files))
  }

  /** A channel is pending exactly when it is configured and its output file is missing. */
  lemma {:induction false} PendingMembers(files: map<string, Content>, channels: seq<string>, ch: string)
    ensures ch in Pending(files, channels) <==> ch in channels && OutputName(ch) !in files
  {
    Seqs.FilterMembers(channels, Unscraped(files), ch);
  }

  /** The completed list the checkpoint file holds, or the empty list `load_checkpoint` starts from. */
  function StoredCompleted(files: map<string, Content>): seq<string> {
    if CheckpointName in files && files[CheckpointName].CheckpointFile? then files[CheckpointName].completed else []
  }

  /** The page loop of `scrape_channel` with its default limits. */
  function Harvest(fetch: Backend, fuel: nat): Outcome {
    Collect(fetch, 0, 0, [], DefaultMaxMessages, DefaultBatchSize, fuel)
  }

  /** No resolvable channel of `chans` leaves its page loop still retrying. */
  predicate NoStall(chans: seq<string>, resolves: string -> bool, fetchFor: string -> Backend, fuel: nat) {
    forall k :: 0 <= k < |chans| && resolves(chans[k]) ==> Harvest(fetchFor(chans[k]), fuel).Finished?
  }

  /** The data directory after `scrape_channel` ran on each of `chans` in turn. */
  function Scraped(files: map<string, Content>, chans: seq<string>, resolves: string -> bool, fetchFor: string -> Backend, fuel: nat): map<string, Content>
    decreases |chans|
  {
    if chans == [] then files
    else
      var ch := chans[|chans| - 1];
      var before := Scraped(files, chans[..|chans| - 1], resolves, fetchFor, fuel);
      var o := Harvest(fetchFor(ch), fuel);
      if resolves(ch) && o.Finished? then before[OutputName(ch) := RecordsFile(o.records)] else before
  }

  /** The messages `scrape_channel` reports for each of `chans`, summed. */
  function ScrapedCount(chans: seq<string>, resolves: string -> bool, fetchFor: string -> Backend, fuel: nat): nat
    decreases |chans|
  {
    if chans == [] then 0
    else
      var ch := chans[|chans| - 1];
      var o := Harvest(fetchFor(ch), fuel);
      ScrapedCount(chans[..|chans| - 1], resolves, fetchFor, fuel) + (if resolves(ch) && o.Finished? then |o.records| else 0)
  }

  /** Files that are no channel's output are left as they were. */
  lemma {:induction false} ScrapedKeepsOthers(files: map<string, Content>, chans: seq<string>, resolves: string -> bool, fetchFor: string -> Backend, fuel: nat, name: string)
    requires forall k :: 0 <= k < |chans| ==> OutputName(chans[k]) != name
    ensures name in Scraped(files, chans, resolves, fetchFor, fuel) <==> name in files
    ensures name in files ==> Scraped(files, chans, resolves, fetchFor, fuel)[name] == files[name]
    decreases |chans|
  {
    if chans != [] {
      ScrapedKeepsOthers(files, chans[..|chans| - 1], resolves, fetchFor, fuel, name);
    }
  }

  /** Every resolvable channel whose loop finished has its records in its output file. */
  lemma {:induction false} ScrapedWrites(files: map<string, Content>, chans: seq<string>, resolves: string -> bool, fetchFor: string -> Backend, fuel: nat, ch: string)
    requires ch in chans && resolves(ch) && Harvest(fetchFor(ch), fuel).Finished?
    ensures OutputName(ch) in Scraped(files, chans, resolves, fetchFor, fuel)
    ensures Scraped(files, chans, resolves, fetchFor, fuel)[OutputName(ch)] == RecordsFile(Harvest(fetchFor(ch), fuel).records)
    decreases |chans|
  {
    var last := chans[|chans| - 1];
    var init := chans[..|chans| - 1];
    assert chans == init + [last];
    if last != ch {
      assert ch in init;
      ScrapedWrites(files, init, resolves, fetchFor, fuel, ch);
      var o := Harvest(fetchFor(last), fuel);
      if resolves(last) && o.Finished? && OutputName(last) == OutputName(ch) {
        OutputNameInjective(last, ch);
      }
    }
  }

  /** A channel that cannot be resolved gets no output file. */
  lemma {:induction false} ScrapedSkipsUnresolved(files: map<string, Content>, chans: seq<string>, resolves: string -> bool, fetchFor: string -> Backend, fuel: nat, ch: string)
    requires !resolves(ch) && OutputName(ch) !in files
    ensures OutputName(ch) !in Scraped(files, chans, resolves, fetchFor, fuel)
    decreases |chans|
  {
    if chans != [] {
      var last := chans[|chans| - 1];
      ScrapedSkipsUnresolved(files, chans[..|chans| - 1], resolves, fetchFor, fuel, ch);
      if resolves(last) && OutputName(last) == OutputName(ch) {
        OutputNameInjective(last, ch);
      }
    }
  }

  /** Extending the processed channels by one scrapes that one on top of the rest. */
  lemma {:induction false} ScrapedSnoc(files: map<string, Content>, chans: seq<string>, ch: string, resolves: string -> bool, fetchFor: string -> Backend, fuel: nat)
    ensures var o := Harvest(fetchFor(ch), fuel);
      var before := Scraped(files, chans, resolves, fetchFor, fuel);
      Scraped(files, chans + [ch], resolves, fetchFor, fuel) ==
        if resolves(ch) && o.Finished? then before[OutputName(ch) := RecordsFile(o.records)] else before
    ensures ScrapedCount(chans + [ch], resolves, fetchFor, fuel) ==
      ScrapedCount(chans, resolves, fetchFor, fuel) + (if resolves(ch) && Harvest(fetchFor(ch), fuel).Finished? then |Harvest(fetchFor(ch), fuel).records| else 0)
  {
    assert (chans + [ch])[..|chans|] == chans;
  }

  /** How a run of the driver ends. */
  datatype RunResult =
    | CheckpointUnreadable
    | NothingToDo
    | Done(total: nat)
    | Stalled(channel: string)

  /** The data directory after the driver processed `chans` and checkpointed each of them. */
  function Checkpointed(files: map<string, Content>, chans: seq<string>, resolves: string -> bool, fetchFor: string -> Backend, fuel: nat): map<string, Content> {
    if chans == [] then files
    else Scraped(files, chans, resolves, fetchFor, fuel)[CheckpointName := CheckpointFile(StoredCompleted(files) + chans)]
  }

  /** Scraping one more channel and saving the checkpoint extends the checkpointed directory by that channel. */
  lemma {:induction false} CheckpointedSnoc(files: map<string, Content>, chans: seq<string>, ch: string, resolves: string -> bool, fetchFor: string -> Backend, fuel: nat)
    ensures var o := Harvest(fetchFor(ch), fuel);
      var before := Checkpointed(files, chans, resolves, fetchFor, fuel);
      var written := if resolves(ch) && o.Finished? then before[OutputName(ch) := RecordsFile(o.records)] else before;
      Checkpointed(files, chans + [ch], resolves, fetchFor, fuel)
        == written[CheckpointName := CheckpointFile(StoredCompleted(files) + chans + [ch])]
  {
    ScrapedSnoc(files, chans, ch, resolves, fetchFor, fuel);
    assert (chans + [ch])[..|chans|] == chans;
    assert StoredCompleted(files) + (chans + [ch]) == StoredCompleted(files) + chans + [ch];
    if chans != [] {
      var o := Harvest(fetchFor(ch), fuel);
      var s := Scraped(files, chans, resolves, fetchFor, fuel);
      var saved := CheckpointFile(StoredCompleted(files) + chans + [ch]);
      if resolves(ch) && o.Finished? {
        OverwriteTwice(s, CheckpointName, CheckpointFile(StoredCompleted(files) + chans), OutputName(ch), RecordsFile(o.records), saved);
      } else {
        assert s[CheckpointName := CheckpointFile(StoredCompleted(files) + chans)][CheckpointName := saved] == s[CheckpointName := saved];
      }
    }
  }

  /**
   * One pass of the driver's channel loop that did not stall: the scraped file,
   * the saved checkpoint and the running total are those of one more channel.
   */
  lemma {:induction false} ChannelStep(files0: map<string, Content>, chans: seq<string>, ch: string, resolves: string -> bool, fetchFor: string -> Backend, fuel: nat,
                                       before: map<string, Content>, written: map<string, Content>, after: map<string, Content>, total: nat, count: nat)
    requires NoStall(chans, resolves, fetchFor, fuel)
    requires total == ScrapedCount(chans, resolves, fetchFor, fuel)
    requires before == Checkpointed(files0, chans, resolves, fetchFor, fuel)
    requires !resolves(ch) ==> count == 0 && written == before
    requires resolves(ch) ==> var o := Harvest(fetchFor(ch), fuel);
      o.Finished? && count == |o.records| && written == before[OutputName(ch) := RecordsFile(o.records)]
    requires after == written[CheckpointName := CheckpointFile(StoredCompleted(files0) + chans + [ch])]
    ensures NoStall(chans + [ch], resolves, fetchFor, fuel)
    ensures total + count == ScrapedCount(chans + [ch], resolves, fetchFor, fuel)
    ensures after == Checkpointed(files0, chans + [ch], resolves, fetchFor, fuel)
  {
    ScrapedSnoc(files0, chans, ch, resolves, fetchFor, fuel);
    CheckpointedSnoc(files0, chans, ch, resolves, fetchFor, fuel);
    forall k | 0 <= k < |chans + [ch]| && resolves((chans + [ch])[k])
      ensures Harvest(fetchFor((chans + [ch])[k]), fuel).Finished?
    {
      if k < |chans| {
        assert (chans + [ch])[k] == chans[k];
      }
    }
  }

  /**
   * After the driver processed `chans`: a resolvable channel whose loop finished
   * has its records in its output file, and one that could not be resolved has
   * no output file, unless that name is the checkpoint's own.
   */
  lemma {:induction false} CheckpointedChannel(files: map<string, Content>, chans: seq<string>, resolves: string -> bool, fetchFor: string -> Backend, fuel: nat, ch: string)
    requires ch in chans && OutputName(ch) != CheckpointName && OutputName(ch) !in files
    ensures var after := Checkpointed(files, chans, resolves, fetchFor, fuel);
      (resolves(ch) && Harvest(fetchFor(ch), fuel).Finished? ==>
        OutputName(ch) in after && after[OutputName(ch)] == RecordsFile(Harvest(fetchFor(ch), fuel).records))
      && (!resolves(ch) ==> OutputName(ch) !in after)
  {
    if resolves(ch) && Harvest(fetchFor(ch), fuel).Finished? {
      ScrapedWrites(files, chans, resolves, fetchFor, fuel, ch);
    }
    if !resolves(ch) {
      ScrapedSkipsUnresolved(files, chans, resolves, fetchFor, fuel, ch);
    }
  }

  /** Files other than the checkpoint and the processed channels' outputs are left as they were. */
  lemma {:induction false} CheckpointedKeepsOthers(files: map<string, Content>, chans: seq<string>, resolves: string -> bool, fetchFor: string -> Backend, fuel: nat, name: string)
    requires name != CheckpointName && forall k :: 0 <= k < |chans| ==> OutputName(chans[k]) != name
    ensures name in Checkpointed(files, chans, resolves, fetchFor, fuel) <==> name in files
    ensures name in files ==> Checkpointed(files, chans, resolves, fetchFor, fuel)[name] == files[name]
  {
    ScrapedKeepsOthers(files, chans, resolves, fetchFor, fuel, name);
  }

  /** Writing a key twice keeps the second value, whatever was written between. */
  lemma {:induction false} OverwriteTwice<K, V>(m: map<K, V>, c: K, a: V, o: K, r: V, b: V)
    ensures m[c := a][o := r][c := b] == m[o := r][c := b]
  {
  }

  /** The data directory: file name to contents. */
  class DataDir {
    var files: map<string, Content>

    constructor (initial: map<string, Content>)
      ensures files == initial
    {
      files := initial;
    }

    /**
     * `load_checkpoint`: the stored list when the checkpoint file exists, an
     * empty list when it does not; a file that is not a checkpoint makes the
     * script fail.
     */
    method LoadCheckpoint() returns (r: Result<seq<string>, string>)
      ensures CheckpointName !in files ==> r == Ok([])
      ensures CheckpointName in files ==>
        (r.Ok? <==> files[CheckpointName].CheckpointFile?)
        && (r.Ok? ==> r.value == files[CheckpointName].completed)
    {
      if CheckpointName !in files {
        return Ok([]);
      }
      match files[CheckpointName]
      case CheckpointFile(completed) => return Ok(completed);
      case _ => return Err("checkpoint file is not a checkpoint");
    }

    /** `save_checkpoint`: overwrite the checkpoint file and nothing else. */
    method SaveCheckpoint(completed: seq<string>)
      modifies this
      ensures files == old(files)[CheckpointName := CheckpointFile(completed)]
    {
      files := files[CheckpointName := CheckpointFile(completed)];
    }

    /** `channel_already_scraped`: the channel's output file exists. */
    method ChannelAlreadyScraped(channel: string) returns (b: bool)
      ensures b <==> OutputName(channel) in files
    {
      b := OutputName(channel) in files;
    }

    /** The skip filter of `main`: the configured channels without an output file, in order. */
    method PendingChannels(channels: seq<string>) returns (pending: seq<string>)
      ensures pending == Pending(files, channels)
    {
      pending := [];
      var i := 0;
      while i < |channels|
        invariant 0 <= i <= |channels|
        invariant pending == Pending(files, channels[..i])
      {
        var done := ChannelAlreadyScraped(channels[i]);
        assert channels[..i + 1] == channels[..i] + [channels[i]];
        Seqs.FilterAppend(channels[..i], [channels[i]], Unscraped(files));
        if !done {
          pending := pending + [channels[i]];
        }
        i := i + 1;
      }
      assert channels[..i] == channels;
    }

    /**
     * `scrape_channel`: a channel that cannot be resolved returns 0 and writes
     * nothing; otherwise the page loop runs and its records are written to the
     * channel's output file once, after the loop, and their number returned.
     * `stalled` means the fuel ran out while the source would still be retrying.
     */
    method ScrapeChannel(channel: string, resolves: bool, fetch: Backend, fuel: nat) returns (count: nat, stalled: bool)
      modifies this
      ensures !resolves ==> count == 0 && !stalled && files == old(files)
      ensures resolves ==>
        var o := Harvest(fetch, fuel);
        (stalled <==> o.OutOfFuel?)
        && (o.OutOfFuel? ==> count == 0 && files == old(files))
        && (o.Finished? ==> count == |o.records| && files == old(files)[OutputName(channel) := RecordsFile(o.records)])
    {
      if !resolves {
        return 0, false;
      }
      var o := CollectMessages(fetch, DefaultMaxMessages, DefaultBatchSize, fuel);
      match o
      case OutOfFuel =>
        return 0, true;
      case Finished(records) =>
        files := files[OutputName(channel) := RecordsFile(records)];
        return |records|, false;
    }

    /**
     * The channel loop of `main`: scrape each pending channel in turn, append it
     * to the completed list and save the checkpoint after it, even when the
     * channel could not be resolved. A run that stalls in a channel's page loop
     * has saved every channel before it.
     */
    method ScrapeAll(pending: seq<string>, completed: seq<string>, resolves: string -> bool, fetchFor: string -> Backend, fuel: nat) returns (r: RunResult)
      requires completed == StoredCompleted(files)
      modifies this
      ensures r.Done? || r.Stalled?
      ensures r.Done? ==>
        NoStall(pending, resolves, fetchFor, fuel)
        && r.total == ScrapedCount(pending, resolves, fetchFor, fuel)
        && files == Checkpointed(old(files), pending, resolves, fetchFor, fuel)
      ensures r.Stalled? ==>
        exists j :: 0 <= j < |pending| && pending[j] == r.channel
          && resolves(r.channel) && Harvest(fetchFor(r.channel), fuel).OutOfFuel?
          && NoStall(pending[..j], resolves, fetchFor, fuel)
          && files == Checkpointed(old(files), pending[..j], resolves, fetchFor, fuel)
    {
      ghost var files0 := files;
      var done := completed;
      var total := 0;
      var j := 0;
      while j < |pending|
        invariant 0 <= j <= |pending|
        invariant done == StoredCompleted(files0) + pending[..j]
        invariant NoStall(pending[..j], resolves, fetchFor, fuel)
        invariant total == ScrapedCount(pending[..j], resolves, fetchFor, fuel)
        invariant files == Checkpointed(files0, pending[..j], resolves, fetchFor, fuel)
      {
        var channel := pending[j];
        ghost var before := files;
        var count, stalled := ScrapeChannel(channel, resolves(channel), fetchFor(channel), fuel);
        if stalled {
          assert pending[j] == channel;
          return Stalled(channel);
        }
        ghost var written := files;
        done := done + [channel];
        SaveCheckpoint(done);
        ChannelStep(files0, pending[..j], channel, resolves, fetchFor, fuel, before, written, files, total, count);
        var next := j + 1;
        Seqs.TakeNext(pending, j);
        Seqs.SeqAssoc(StoredCompleted(files0), pending[..j], [channel]);
        total := total + count;
        j := next;
      }
      assert pending[..j] == pending;
      return Done(total);
    }

    /**
     * `main`: load the checkpoint, keep the channels whose output file is
     * missing, stop when there are none, and otherwise scrape them in order.
     */
    method Run(channels: seq<string>, resolves: string -> bool, fetchFor: string -> Backend, fuel: nat) returns (r: RunResult)
      modifies this
      ensures r.CheckpointUnreadable? <==>
        CheckpointName in old(files) && !old(files)[CheckpointName].CheckpointFile?
      ensures r.NothingToDo? <==> !r.CheckpointUnreadable? && Pending(old(files), channels) == []
      ensures r.CheckpointUnreadable? || r.NothingToDo? ==> files == old(files)
      ensures r.Done? ==>
        var p := Pending(old(files), channels);
        NoStall(p, resolves, fetchFor, fuel)
        && r.total == ScrapedCount(p, resolves, fetchFor, fuel)
        && files == Checkpointed(old(files), p, resolves, fetchFor, fuel)
      ensures r.Stalled? ==>
        var p := Pending(old(files), channels);
        exists j :: 0 <= j < |p| && p[j] == r.channel
          && resolves(r.channel) && Harvest(fetchFor(r.channel), fuel).OutOfFuel?
          && NoStall(p[..j], resolves, fetchFor, fuel)
          && files == Checkpointed(old(files), p[..j], resolves, fetchFor, fuel)
    {
      var loaded := LoadCheckpoint();
      if loaded.Err? {
        return CheckpointUnreadable;
      }
      var pending := PendingChannels(channels);
      if pending == [] {
        return NothingToDo;
      }
      r := ScrapeAll(pending, loaded.value, resolves, fetchFor, fuel);
    }
  }
}
