/**
 * The single-channel Telegram scraper: one fixed channel, pages of 100
 * messages, at most 1000 text records. Its `while True` loop requests a page
 * before it looks at the cap and breaks out on an empty page or once the cap is
 * reached; a failed request is retried. The records are written to the
 * channel's output file after the loop; a failure to connect or to resolve the
 * channel ends the script before anything is written.
 */
module ScrapeOneChannel {
  import opened ScrapeManyChannel

  const ChannelName: string := "lebanonnews2"
  const Limit: nat := 100
  const MaxMessages: nat := 1000

  /** How the script ends. */
  datatype ScriptResult = Saved(count: nat) | Fatal | StillRetrying

  /**
   * The `while True` loop of `main`. The running total first grows by the
   * page size and is then overwritten by the number of records held, so the
   * cap is checked against the records only. The loop is the same cursor loop
   * as the multi-channel scraper's, with this script's limits.
   */
  method CollectAll(fetch: Backend, fuel: nat) returns (o: Outcome)
    ensures o == Collect(fetch, 0, 0, [], MaxMessages, Limit, fuel)
  {
    var all: seq<Record> := [];
    var offset := 0;
    var total := 0;
    var attempt := 0;
    var left := fuel;
    while true
      invariant |all| < MaxMessages
      invariant Collect(fetch, 0, 0, [], MaxMessages, Limit, fuel) == Collect(fetch, attempt, offset, all, MaxMessages, Limit, left)
      decreases left
    {
      if left == 0 {
        return OutOfFuel;
      }
      var response := fetch(attempt, offset, Limit);
      left, attempt := left - 1, attempt + 1;
      match response
      case Failure =>
      case Page(msgs) =>
        if msgs == [] {
          break;
        }
        total := total + |msgs|;
        all := TakePage(msgs, all, MaxMessages);
        offset := msgs[|msgs| - 1].id;
        total := |all|;
        if total >= MaxMessages {
          assert Collect(fetch, attempt, offset, all, MaxMessages, Limit, left) == Finished(all);
          return Finished(all);
        }
    }
    return Finished(all);
  }

  /**
   * `main`: connect, resolve the channel, run the loop and write the records to
   * `lebanonnews2.json`. `connected` and `resolves` stand for `client.start()`
   * and `get_entity` succeeding; either failing is re-raised as fatal.
   */
  method Scrape(dir: DataDir, connected: bool, resolves: bool, fetch: Backend, fuel: nat) returns (r: ScriptResult)
    modifies dir
    ensures !(connected && resolves) ==> r == Fatal && dir.files == old(dir.files)
    ensures connected && resolves ==>
      var o := Collect(fetch, 0, 0, [], MaxMessages, Limit, fuel);
      (o.OutOfFuel? ==> r == StillRetrying && dir.files == old(dir.files))
      && (o.Finished? ==>
            r == Saved(|o.records|) && dir.files == old(dir.files)[OutputName(ChannelName) := RecordsFile(o.records)])
  {
    if !(connected && resolves) {
      return Fatal;
    }
    var o := CollectAll(fetch, fuel);
    match o
    case OutOfFuel =>
      return StillRetrying;
    case Finished(records) =>
      dir.files := dir.files[OutputName(ChannelName) := RecordsFile(records)];
      return Saved(|records|);
  }

  /**
   * Against a channel history served newest-first, the saved file holds the
   * newest 1000 text records (or all of them), in history order, however many
   * requests failed; and a server that never fails lets the script finish.
   */
  lemma {:induction false} SavesNewestTexts(fetch: Backend, h: seq<RawMessage>, fuel: nat)
    requires NewestFirst(h) && Serves(fetch, h)
    ensures var o := Collect(fetch, 0, 0, [], MaxMessages, Limit, fuel);
      (o.Finished? ==> o.records == Prefix(Texts(h), MaxMessages))
      && (Reliable(fetch, h) && fuel > |h| ==> o.Finished?)
  {
    CollectHistory(fetch, h, MaxMessages, Limit, fuel);
  }
}
