/**
 * The votes-to-seats simulation: lists below the threshold are eliminated,
 * the qualifying lists share the seats by largest remainders (the Hamilton
 * method), and the simulation component keeps the phase, the seats shown and
 * the eliminated and highlighted lists.
 *
 * The quota of a list is `votes * seats / qualifyingVotes`; its integer part
 * and remainder are computed exactly, as `div` and `mod` on integers. A list's
 * position in the qualifying sequence identifies it.
 */
module VotesToSeats {
  import Seqs

  datatype PartyList = PartyList(id: string, votes: nat, color: string)

  /** A seat given to a list, numbered in allocation order. */
  datatype Seat = Seat(listId: string, color: string, seatIndex: nat)

  // ---------------------------------------------------------------------
  // Threshold

  /** `list.votes >= threshold`. */
  function AtLeast(threshold: nat): PartyList -> bool {
    (l: PartyList) => l.votes >= threshold
  }

  /** `list.votes < threshold`. */
  function Below(threshold: nat): PartyList -> bool {
    (l: PartyList) => l.votes < threshold
  }

  /** The lists at or above the threshold, in their input order. */
  function QualifyingLists(lists: seq<PartyList>, threshold: nat): (r: seq<PartyList>)
    ensures Seqs.IsSubsequence(r, lists)
    ensures forall i :: 0 <= i < |r| ==> r[i].votes >= threshold
  {
    Seqs.FilterIsSubsequence(lists, AtLeast(threshold));
    Seqs.FilterPasses(lists, AtLeast(threshold));
    Seqs.Filter(lists, AtLeast(threshold))
  }

  /** The lists below the threshold, in their input order. */
  function EliminatedLists(lists: seq<PartyList>, threshold: nat): (r: seq<PartyList>)
    ensures Seqs.IsSubsequence(r, lists)
    ensures forall i :: 0 <= i < |r| ==> r[i].votes < threshold
  {
    Seqs.FilterIsSubsequence(lists, Below(threshold));
    Seqs.FilterPasses(lists, Below(threshold));
    Seqs.Filter(lists, Below(threshold))
  }

  function Ids(ls: seq<PartyList>): (r: seq<string>)
    ensures |r| == |ls| && forall i :: 0 <= i < |ls| ==> r[i] == ls[i].id
  {
    seq(|ls|, i requires 0 <= i < |ls| => ls[i].id)
  }

  /** A list qualifies iff it reaches the threshold, and it is eliminated iff it does not qualify. */
  lemma {:induction false} EliminatedIsComplement(lists: seq<PartyList>, threshold: nat, l: PartyList)
    requires l in lists
    ensures l in QualifyingLists(lists, threshold) <==> l.votes >= threshold
    ensures l in EliminatedLists(lists, threshold) <==> !(l in QualifyingLists(lists, threshold))
  {
    Seqs.FilterMembers(lists, AtLeast(threshold), l);
    Seqs.FilterMembers(lists, Below(threshold), l);
  }

  // ---------------------------------------------------------------------
  // Quotas

  /** The votes of the qualifying lists: the `reduce` sum. */
  function TotalVotes(q: seq<PartyList>): nat
    decreases |q|
  {
    if q == [] then 0 else TotalVotes(q[..|q| - 1]) + q[|q| - 1].votes
  }

  /** `Math.floor(votes / total * seats)`, exactly; with no votes at all, nothing. */
  function Floor(votes: nat, seats: nat, total: nat): nat {
    if total == 0 then 0 else votes * seats / total
  }

  /** The fractional part of the quota, scaled by `total`; equal for every list when there are no votes. */
  function Rem(votes: nat, seats: nat, total: nat): (r: nat)
    ensures total > 0 ==> r < total && votes * seats == total * Floor(votes, seats, total) + r
  {
    if total == 0 then 0 else votes * seats % total
  }

  function Repeat(x: nat, n: nat): (r: seq<nat>)
    ensures |r| == n && forall j :: 0 <= j < n ==> r[j] == x
  {
    seq(n, _ => x)
  }

  /** The first pass: `floor(quota)` seats to each list in turn, as positions in `q`. */
  function FirstPass(q: seq<PartyList>, seats: nat, total: nat): (r: seq<nat>)
    ensures forall j :: 0 <= j < |r| ==> r[j] < |q|
    decreases |q|
  {
    if q == [] then []
    else FirstPass(q[..|q| - 1], seats, total) + Repeat(|q| - 1, Floor(q[|q| - 1].votes, seats, total))
  }

  // ---------------------------------------------------------------------
  // The stable sort by remainder

  /** A list's place in the qualifying sequence and its remainder. */
  datatype Entry = Entry(pos: nat, rem: nat)

  function Entries(q: seq<PartyList>, seats: nat, total: nat): (r: seq<Entry>)
    ensures |r| == |q|
    ensures forall i :: 0 <= i < |q| ==> r[i] == Entry(i, Rem(q[i].votes, seats, total))
  {
    seq(|q|, i requires 0 <= i < |q| => Entry(i, Rem(q[i].votes, seats, total)))
  }

  /** `sort((a, b) => b.remainder - a.remainder)`, which is stable: larger remainder first, ties in list order. */
  predicate Before(a: Entry, b: Entry) {
    a.rem > b.rem || (a.rem == b.rem && a.pos < b.pos)
  }

  predicate Sorted(s: seq<Entry>) {
    forall i, j :: 0 <= i < j < |s| ==> Before(s[i], s[j])
  }

  /** Positions strictly increasing, as in `Entries`. */
  predicate Increasing(s: seq<Entry>) {
    forall i, j :: 0 <= i < j < |s| ==> s[i].pos < s[j].pos
  }

  /** Places `x` after every entry with a larger remainder. */
  function Insert(x: Entry, ys: seq<Entry>): (r: seq<Entry>)
    ensures |r| == |ys| + 1
    ensures r[0] == x || (ys != [] && r[0] == ys[0])
    decreases |ys|
  {
    if ys == [] || ys[0].rem <= x.rem then [x] + ys
    else [ys[0]] + Insert(x, ys[1..])
  }

  /** Inserting keeps every entry and adds the new one. */
  lemma {:induction false} InsertPermutation(x: Entry, ys: seq<Entry>)
    ensures multiset(Insert(x, ys)) == multiset(ys) + multiset{x}
    decreases |ys|
  {
    if ys != [] && ys[0].rem > x.rem {
      assert ys == [ys[0]] + ys[1..];
      InsertPermutation(x, ys[1..]);
    }
  }

  /** An entry placed before a sorted sequence whose head it precedes keeps it sorted. */
  lemma {:induction false} ConsSorted(x: Entry, ys: seq<Entry>)
    requires Sorted(ys)
    requires ys != [] ==> Before(x, ys[0])
    ensures Sorted([x] + ys)
  {
    var r := [x] + ys;
    forall i, j | 0 <= i < j < |r| ensures Before(r[i], r[j]) {
      if i == 0 {
        if j > 1 {
          assert Before(ys[0], ys[j - 1]);
        }
      } else {
        assert r[i] == ys[i - 1] && r[j] == ys[j - 1];
      }
    }
  }

  lemma {:induction false} InsertSorted(x: Entry, ys: seq<Entry>)
    requires Sorted(ys)
    requires forall y :: y in ys ==> x.pos < y.pos
    ensures Sorted(Insert(x, ys))
    decreases |ys|
  {
    if ys == [] || ys[0].rem <= x.rem {
      ConsSorted(x, ys);
    } else {
      var tail := ys[1..];
      assert Sorted(tail) by {
        forall i, j | 0 <= i < j < |tail| ensures Before(tail[i], tail[j]) {
          assert tail[i] == ys[i + 1] && tail[j] == ys[j + 1];
        }
      }
      InsertSorted(x, tail);
      var rest := Insert(x, tail);
      assert rest[0] == x || rest[0] == ys[1];
      ConsSorted(ys[0], rest);
    }
  }

  /** Insertion sort from the back, which keeps equal remainders in their original order. */
  function SortEntries(s: seq<Entry>): (r: seq<Entry>)
    ensures |r| == |s|
    decreases |s|
  {
    if s == [] then [] else Insert(s[0], SortEntries(s[1..]))
  }

  /** The sort is a permutation of its input. */
  lemma {:induction false} SortEntriesPermutation(s: seq<Entry>)
    ensures multiset(SortEntries(s)) == multiset(s)
    decreases |s|
  {
    if s != [] {
      assert s == [s[0]] + s[1..];
      SortEntriesPermutation(s[1..]);
      InsertPermutation(s[0], SortEntries(s[1..]));
    }
  }

  lemma {:induction false} SortEntriesSorted(s: seq<Entry>)
    requires Increasing(s)
    ensures Sorted(SortEntries(s))
    decreases |s|
  {
    if s != [] {
      var tail := s[1..];
      assert Increasing(tail) by {
        forall i, j | 0 <= i < j < |tail| ensures tail[i].pos < tail[j].pos {
          assert tail[i] == s[i + 1] && tail[j] == s[j + 1];
        }
      }
      SortEntriesSorted(tail);
      SortEntriesPermutation(tail);
      forall y | y in SortEntries(tail) ensures s[0].pos < y.pos {
        assert y in multiset(tail);
        var k :| 0 <= k < |tail| && tail[k] == y;
        assert s[k + 1] == y;
      }
      InsertSorted(s[0], SortEntries(tail));
    }
  }

  /** The lists ranked for the extra seats. */
  function Ranked(q: seq<PartyList>, seats: nat, total: nat): (r: seq<Entry>)
    ensures |r| == |q|
    ensures forall j :: 0 <= j < |r| ==> r[j].pos < |q|
  {
    var es := Entries(q, seats, total);
    var r := SortEntries(es);
    assert forall j :: 0 <= j < |r| ==> r[j].pos < |q| by {
      SortEntriesPermutation(es);
      forall j | 0 <= j < |r| ensures r[j].pos < |q| {
        assert r[j] in multiset(es);
      }
    }
    r
  }

  /** The ranking is a permutation of the entries. */
  lemma {:induction false} RankedPermutation(q: seq<PartyList>, seats: nat, total: nat)
    ensures multiset(Ranked(q, seats, total)) == multiset(Entries(q, seats, total))
  {
    SortEntriesPermutation(Entries(q, seats, total));
  }

  /** Every ranked entry is the entry of a qualifying list. */
  lemma {:induction false} RankedEntry(q: seq<PartyList>, seats: nat, total: nat, j: nat)
    requires j < |q|
    ensures var e := Ranked(q, seats, total)[j];
      e.pos < |q| && e == Entry(e.pos, Rem(q[e.pos].votes, seats, total))
  {
    var r := Ranked(q, seats, total);
    var es := Entries(q, seats, total);
    RankedPermutation(q, seats, total);
    assert r[j] in multiset(es);
    var k :| 0 <= k < |es| && es[k] == r[j];
  }

  /** The ranking is in descending remainder order with ties in list order, and ranks each list once. */
  lemma {:induction false} RankedSorted(q: seq<PartyList>, seats: nat, total: nat)
    ensures Sorted(Ranked(q, seats, total))
    ensures forall a, b :: 0 <= a < b < |q| ==> Ranked(q, seats, total)[a].pos != Ranked(q, seats, total)[b].pos
  {
    var es := Entries(q, seats, total);
    SortEntriesSorted(es);
    var r := Ranked(q, seats, total);
    forall a, b | 0 <= a < b < |q| ensures r[a].pos != r[b].pos {
      RankedEntry(q, seats, total, a);
      RankedEntry(q, seats, total, b);
    }
  }

  /** Every qualifying list is somewhere in the ranking. */
  lemma {:induction false} RankedCovers(q: seq<PartyList>, seats: nat, total: nat, i: nat)
    requires i < |q|
    ensures exists b :: 0 <= b < |q| && Ranked(q, seats, total)[b].pos == i
  {
    var es := Entries(q, seats, total);
    RankedPermutation(q, seats, total);
    assert es[i] in multiset(Ranked(q, seats, total));
    var r := Ranked(q, seats, total);
    var b :| 0 <= b < |r| && r[b] == es[i];
  }

  // ---------------------------------------------------------------------
  // The allocation

  function Min(a: int, b: int): int {
    if a <= b then a else b
  }

  /** The second pass: one seat each to the first `remaining` ranked lists. */
  function SecondPass(q: seq<PartyList>, seats: nat, total: nat, remaining: int): (r: seq<nat>)
    ensures |r| == if remaining <= 0 then 0 else Min(remaining, |q|)
    ensures forall j :: 0 <= j < |r| ==> r[j] == Ranked(q, seats, total)[j].pos && r[j] < |q|
  {
    var ranked := Ranked(q, seats, total);
    var n := if remaining <= 0 then 0 else Min(remaining, |q|);
    Positions(ranked, n)
  }

  /** The lists of the first `n` ranked entries, in rank order. */
  function Positions(ranked: seq<Entry>, n: nat): (r: seq<nat>)
    requires n <= |ranked|
    ensures |r| == n
    ensures forall j :: 0 <= j < n ==> r[j] == ranked[j].pos
  {
    if n == 0 then [] else Positions(ranked, n - 1) + [ranked[n - 1].pos]
  }

  /** Who gets each seat, in allocation order, as positions among the qualifying lists. */
  function Owners(q: seq<PartyList>, seats: nat): (r: seq<nat>)
    ensures forall j :: 0 <= j < |r| ==> r[j] < |q|
  {
    var total := TotalVotes(q);
    var first := FirstPass(q, seats, total);
    first + SecondPass(q, seats, total, seats - |first|)
  }

  /** The seats for a sequence of owners, numbered from 0. */
  function SeatsOf(q: seq<PartyList>, owners: seq<nat>): (r: seq<Seat>)
    requires forall j :: 0 <= j < |owners| ==> owners[j] < |q|
    ensures |r| == |owners|
    ensures forall j :: 0 <= j < |r| ==> r[j] == Seat(q[owners[j]].id, q[owners[j]].color, j)
  {
    seq(|owners|, j requires 0 <= j < |owners| => Seat(q[owners[j]].id, q[owners[j]].color, j))
  }

  /** `calculateSeats`, as a value. */
  function Allocation(lists: seq<PartyList>, seats: nat, threshold: nat): seq<Seat> {
    var q := QualifyingLists(lists, threshold);
    SeatsOf(q, Owners(q, seats))
  }

  lemma {:induction false} SeatsOfSnoc(q: seq<PartyList>, owners: seq<nat>, x: nat)
    requires forall j :: 0 <= j < |owners| ==> owners[j] < |q|
    requires x < |q|
    ensures SeatsOf(q, owners + [x]) == SeatsOf(q, owners) + [Seat(q[x].id, q[x].color, |owners|)]
  {
  }

  /** The first pass of `calculateSeats`: `floor(quota)` seats pushed for each list in turn. */
  method AllocateFloors(q: seq<PartyList>, seats: nat, total: nat) returns (allocations: seq<Seat>)
    ensures allocations == SeatsOf(q, FirstPass(q, seats, total))
  {
    allocations := [];
    var seatIndex := 0;
    var k := 0;
    while k < |q|
      invariant 0 <= k <= |q|
      invariant seatIndex == |allocations|
      invariant allocations == SeatsOf(q, FirstPass(q[..k], seats, total))
    {
      var won := Floor(q[k].votes, seats, total);
      ghost var before := FirstPass(q[..k], seats, total);
      assert q[..k + 1][..k] == q[..k];
      var i := 0;
      while i < won
        invariant 0 <= i <= won
        invariant seatIndex == |allocations|
        invariant allocations == SeatsOf(q, before + Repeat(k, i))
      {
        SeatsOfSnoc(q, before + Repeat(k, i), k);
        assert before + Repeat(k, i) + [k] == before + Repeat(k, i + 1);
        allocations := allocations + [Seat(q[k].id, q[k].color, seatIndex)];
        seatIndex := seatIndex + 1;
        i := i + 1;
      }
      k := k + 1;
    }
    assert q[..k] == q;
  }

  /** The second pass of `calculateSeats`: one more seat per ranked list while seats remain. */
  method AllocateRemainders(q: seq<PartyList>, seats: nat, total: nat, first: seq<nat>, floors: seq<Seat>)
    returns (allocations: seq<Seat>)
    requires forall j :: 0 <= j < |first| ==> first[j] < |q|
    requires floors == SeatsOf(q, first)
    ensures allocations == SeatsOf(q, first + SecondPass(q, seats, total, seats - |first|))
  {
    allocations := floors;
    var seatIndex := |floors|;
    var remaining := seats - |allocations|;
    var ranked := Ranked(q, seats, total);
    var i := 0;
    ghost var owners := first;
    while i < remaining && i < |ranked|
      invariant 0 <= i <= |ranked|
      invariant i == 0 || i <= remaining
      invariant seatIndex == |first| + i
      invariant owners == first + SecondPass(q, seats, total, i)
      invariant allocations == SeatsOf(q, owners)
      decreases |ranked| - i
    {
      ExtraSeatStep(q, seats, total, first, i);
      owners := first + SecondPass(q, seats, total, i + 1);
      allocations := allocations + [Seat(q[ranked[i].pos].id, q[ranked[i].pos].color, seatIndex)];
      seatIndex := seatIndex + 1;
      i := i + 1;
    }
    SecondPassSame(q, seats, total, i, remaining);
  }

  /** Seat `|first| + i` of the second pass goes to the list ranked `i`. */
  lemma {:induction false} ExtraSeatStep(q: seq<PartyList>, seats: nat, total: nat, first: seq<nat>, i: nat)
    requires forall j :: 0 <= j < |first| ==> first[j] < |q|
    requires i < |q|
    ensures var o := Ranked(q, seats, total)[i].pos;
      SeatsOf(q, first + SecondPass(q, seats, total, i)) + [Seat(q[o].id, q[o].color, |first| + i)]
        == SeatsOf(q, first + SecondPass(q, seats, total, i + 1))
  {
    var o := Ranked(q, seats, total)[i].pos;
    var before := first + SecondPass(q, seats, total, i);
    SeatsOfSnoc(q, before, o);
    SecondPassSnoc(q, seats, total, i);
    assert before + [o] == first + SecondPass(q, seats, total, i + 1);
  }

  /** One more seat in the second pass is the next ranked list. */
  lemma {:induction false} SecondPassSnoc(q: seq<PartyList>, seats: nat, total: nat, i: nat)
    requires i < |q|
    ensures SecondPass(q, seats, total, i) + [Ranked(q, seats, total)[i].pos] == SecondPass(q, seats, total, i + 1)
  {
    var a, b := SecondPass(q, seats, total, i), SecondPass(q, seats, total, i + 1);
    assert |a + [Ranked(q, seats, total)[i].pos]| == |b|;
  }

  /** Asking for more extra seats than there are lists changes nothing. */
  lemma {:induction false} SecondPassSame(q: seq<PartyList>, seats: nat, total: nat, i: nat, remaining: int)
    requires i <= |q| && (i == 0 || i <= remaining)
    requires i >= remaining || i >= |q|
    ensures SecondPass(q, seats, total, i) == SecondPass(q, seats, total, remaining)
  {
    var got, final := SecondPass(q, seats, total, i), SecondPass(q, seats, total, remaining);
    assert |got| == |final|;
  }

  /** `calculateSeats`: the qualifying lists, their vote total, then the two passes. */
  method CalculateSeats(lists: seq<PartyList>, seats: nat, threshold: nat) returns (allocations: seq<Seat>)
    ensures allocations == Allocation(lists, seats, threshold)
  {
    var q := QualifyingLists(lists, threshold);
    var total := TotalVotes(q);
    var floors := AllocateFloors(q, seats, total);
    allocations := AllocateRemainders(q, seats, total, FirstPass(q, seats, total), floors);
  }

  // ---------------------------------------------------------------------
  // Properties of the allocation

  /** Seats are numbered 0, 1, ... in allocation order, and each goes to a list that reached the threshold. */
  lemma {:induction false} SeatsGoToQualifyingLists(lists: seq<PartyList>, seats: nat, threshold: nat, j: nat)
    requires j < |Allocation(lists, seats, threshold)|
    ensures Allocation(lists, seats, threshold)[j].seatIndex == j
    ensures exists l :: l in lists && l.votes >= threshold && Allocation(lists, seats, threshold)[j].listId == l.id
  {
    var q := QualifyingLists(lists, threshold);
    var o := Owners(q, seats)[j];
    assert q[o] in q;
    Seqs.FilterMembers(lists, AtLeast(threshold), q[o]);
  }

  /** No list qualifies: no seat is allocated. */
  lemma {:induction false} NoQualifyingListNoSeats(lists: seq<PartyList>, seats: nat, threshold: nat)
    requires forall i :: 0 <= i < |lists| ==> lists[i].votes < threshold
    ensures Allocation(lists, seats, threshold) == []
  {
    Seqs.FilterNone(lists, AtLeast(threshold));
  }

  function SumFloor(q: seq<PartyList>, seats: nat, total: nat): nat
    decreases |q|
  {
    if q == [] then 0 else SumFloor(q[..|q| - 1], seats, total) + Floor(q[|q| - 1].votes, seats, total)
  }

  function SumRem(q: seq<PartyList>, seats: nat, total: nat): nat
    decreases |q|
  {
    if q == [] then 0 else SumRem(q[..|q| - 1], seats, total) + Rem(q[|q| - 1].votes, seats, total)
  }

  lemma {:induction false} FirstPassLength(q: seq<PartyList>, seats: nat, total: nat)
    ensures |FirstPass(q, seats, total)| == SumFloor(q, seats, total)
    decreases |q|
  {
    if q != [] {
      FirstPassLength(q[..|q| - 1], seats, total);
    }
  }

  /** Summed over the lists: votes times seats is total times the floors plus the remainders. */
  lemma {:induction false} QuotaIdentity(q: seq<PartyList>, seats: nat, total: nat)
    requires total > 0
    ensures TotalVotes(q) * seats == total * SumFloor(q, seats, total) + SumRem(q, seats, total)
    ensures SumRem(q, seats, total) <= |q| * (total - 1)
    decreases |q|
  {
    if q != [] {
      var init := q[..|q| - 1];
      var v := q[|q| - 1].votes;
      QuotaIdentity(init, seats, total);
      Distribute(TotalVotes(init), v, seats);
      Distribute(SumFloor(init, seats, total), Floor(v, seats, total), total);
      Distribute(|init|, 1, total - 1);
    }
  }

  lemma {:induction false} Distribute(a: int, b: int, c: int)
    ensures (a + b) * c == a * c + b * c
    ensures c * (a + b) == c * a + c * b
  {
  }

  /** With `total * x <= n * total - n` and positive `total`, `x < n`. */
  lemma {:induction false} BelowCount(total: nat, x: int, n: nat)
    requires total > 0 && n > 0
    requires total * x <= n * (total - 1)
    ensures x < n
  {
    if x >= n {
      MulMonoInt(total, n, x);
    }
  }

  lemma {:induction false} MulMonoInt(c: nat, a: int, b: int)
    requires a <= b
    ensures c * a <= c * b
  {
  }

  /** The first pass never hands out more than the seats, and it leaves fewer seats than there are qualifying lists. */
  lemma {:induction false} RemainingBelowListCount(q: seq<PartyList>, seats: nat)
    requires TotalVotes(q) > 0
    ensures 0 <= seats - |FirstPass(q, seats, TotalVotes(q))| < |q|
  {
    var total := TotalVotes(q);
    var floors, rems := SumFloor(q, seats, total), SumRem(q, seats, total);
    QuotaIdentity(q, seats, total);
    FirstPassLength(q, seats, total);
    var x := seats - floors;
    Distribute(x, floors, total);
    assert total * x == rems;
    if x < 0 {
      MulMonoInt(total, x, -1);
    }
    BelowCount(total, x, |q|);
  }

  /** When some qualifying list has a vote, exactly `seats` seats are allocated. */
  lemma {:induction false} AllSeatsAllocated(lists: seq<PartyList>, seats: nat, threshold: nat)
    requires TotalVotes(QualifyingLists(lists, threshold)) > 0
    ensures |Allocation(lists, seats, threshold)| == seats
  {
    RemainingBelowListCount(QualifyingLists(lists, threshold), seats);
  }

  lemma {:induction false} RepeatCount(x: nat, n: nat, i: nat)
    ensures multiset(Repeat(x, n))[i] == if i == x then n else 0
    decreases n
  {
    if n > 0 {
      assert Repeat(x, n) == Repeat(x, n - 1) + [x];
      RepeatCount(x, n - 1, i);
    }
  }

  /** The first pass gives list `i` exactly `floor(quota_i)` seats. */
  lemma {:induction false} FirstPassCount(q: seq<PartyList>, seats: nat, total: nat, i: nat)
    ensures multiset(FirstPass(q, seats, total))[i] == if i < |q| then Floor(q[i].votes, seats, total) else 0
    decreases |q|
  {
    if q != [] {
      var init := q[..|q| - 1];
      FirstPassCount(init, seats, total, i);
      RepeatCount(|q| - 1, Floor(q[|q| - 1].votes, seats, total), i);
      if i < |init| {
        assert init[i] == q[i];
      }
    }
  }

  /** The second pass gives each list at most one seat. */
  lemma {:induction false} SecondPassAtMostOnce(q: seq<PartyList>, seats: nat, total: nat, remaining: int, i: nat)
    ensures multiset(SecondPass(q, seats, total, remaining))[i] <= 1
  {
    var s := SecondPass(q, seats, total, remaining);
    RankedSorted(q, seats, total);
    DistinctCount(s, i);
  }

  lemma {:induction false} DistinctCount(s: seq<nat>, x: nat)
    requires forall a, b :: 0 <= a < b < |s| ==> s[a] != s[b]
    ensures multiset(s)[x] <= 1
    decreases |s|
  {
    if s != [] {
      var init := s[..|s| - 1];
      assert s == init + [s[|s| - 1]];
      DistinctCount(init, x);
      if s[|s| - 1] == x {
        assert x !in init;
      }
    }
  }

  /** A value that occurs `f` times in one part and at most once in the other occurs `f` or `f + 1` times in all. */
  lemma {:induction false} CountOneMore(all: seq<nat>, first: seq<nat>, second: seq<nat>, x: nat, f: nat)
    requires all == first + second
    requires multiset(first)[x] == f && multiset(second)[x] <= 1
    ensures multiset(all)[x] == f || multiset(all)[x] == f + 1
  {
    assert multiset(all) == multiset(first) + multiset(second);
  }

  /** Every qualifying list receives the integer part of its quota, or one seat more. */
  lemma {:induction false} FloorOrOneMore(q: seq<PartyList>, seats: nat, i: nat)
    requires i < |q|
    ensures var total := TotalVotes(q);
      var n := multiset(Owners(q, seats))[i];
      n == Floor(q[i].votes, seats, total) || n == Floor(q[i].votes, seats, total) + 1
  {
    var total := TotalVotes(q);
    var first := FirstPass(q, seats, total);
    var remaining := seats - |first|;
    var second := SecondPass(q, seats, total, remaining);
    var f := Floor(q[i].votes, seats, total);
    var inFirst: multiset<nat>, inSecond: multiset<nat> := multiset(first), multiset(second);
    assert inFirst[i] == f by {
      FirstPassCount(q, seats, total, i);
    }
    assert inSecond[i] <= 1 by {
      SecondPassAtMostOnce(q, seats, total, remaining, i);
    }
    CountOneMore(Owners(q, seats), first, second, i, f);
  }

  /**
   * The extra seats go to the largest remainders: a list that gets one and a
   * list that does not have remainders in that order, the earlier list
   * winning a tie.
   */
  lemma {:induction false} ExtraSeatsToLargestRemainders(q: seq<PartyList>, seats: nat, remaining: int, i: nat, k: nat)
    requires i < |q| && k < |q|
    requires var s := SecondPass(q, seats, TotalVotes(q), remaining); i in s && k !in s
    ensures var total := TotalVotes(q);
      Rem(q[i].votes, seats, total) > Rem(q[k].votes, seats, total)
      || (Rem(q[i].votes, seats, total) == Rem(q[k].votes, seats, total) && i < k)
  {
    var total := TotalVotes(q);
    var s := SecondPass(q, seats, total, remaining);
    var r := Ranked(q, seats, total);
    RankedSorted(q, seats, total);
    var a :| 0 <= a < |s| && s[a] == i;
    RankedCovers(q, seats, total, k);
    var b :| 0 <= b < |q| && r[b].pos == k;
    RankedEntry(q, seats, total, a);
    RankedEntry(q, seats, total, b);
    assert Before(r[a], r[b]);
  }

  // ---------------------------------------------------------------------
  // The simulation component

  /** The simulation panel: phase 0 idle, 1 threshold shown, 2 lists eliminated, 3 seats allocated. */
  class Simulation {
    var phase: nat
    var isAnimating: bool
    var seats: seq<Seat>
    var eliminated: seq<string>
    var highlighted: seq<string>

    constructor ()
      ensures phase == 0 && !isAnimating && seats == [] && eliminated == [] && highlighted == []
    {
      phase := 0;
      isAnimating := false;
      seats := [];
      eliminated := [];
      highlighted := [];
    }

    /**
     * `runSimulation`, run to completion: ignored while animating; otherwise
     * the eliminated lists, the qualifying lists highlighted, and the seats
     * added one by one to those already shown: as written, a second run
     * without a reset shows both allocations (see the findings).
     */
    method Run(lists: seq<PartyList>, totalSeats: nat, threshold: nat)
      modifies this
      ensures old(isAnimating) ==> phase == old(phase) && isAnimating && seats == old(seats)
                                   && eliminated == old(eliminated) && highlighted == old(highlighted)
      ensures !old(isAnimating) ==> phase == 3 && !isAnimating
      ensures !old(isAnimating) ==> eliminated == Ids(EliminatedLists(lists, threshold))
      ensures !old(isAnimating) ==> highlighted == Ids(QualifyingLists(lists, threshold))
      ensures !old(isAnimating) ==> seats == SeatsAfterRunAsWritten(old(seats), Allocation(lists, totalSeats, threshold))
    {
      if isAnimating {
        return;
      }
      isAnimating := true;
      phase := 1;
      highlighted := Ids(lists);
      phase := 2;
      var out := Ids(EliminatedLists(lists, threshold));
      var kept := Ids(QualifyingLists(lists, threshold));
      eliminated := out;
      highlighted := kept;
      phase := 3;
      var allocations := CalculateSeats(lists, totalSeats, threshold);
      ShowSeats(allocations);
      isAnimating := false;
    }

    /** The seats of an allocation appended one by one, `setSeats((prev) => [...prev, seat])`. */
    method ShowSeats(allocations: seq<Seat>)
      modifies this
      ensures seats == old(seats) + allocations
      ensures phase == old(phase) && isAnimating == old(isAnimating)
      ensures eliminated == old(eliminated) && highlighted == old(highlighted)
    {
      var i := 0;
      while i < |allocations|
        invariant 0 <= i <= |allocations|
        invariant seats == old(seats) + allocations[..i]
        invariant phase == old(phase) && isAnimating == old(isAnimating)
        invariant eliminated == old(eliminated) && highlighted == old(highlighted)
      {
        assert allocations[..i + 1] == allocations[..i] + [allocations[i]];
        seats := seats + [allocations[i]];
        i := i + 1;
      }
      assert allocations[..i] == allocations;
    }

    /** `resetSimulation`. */
    method Reset()
      modifies this
      ensures phase == 0 && !isAnimating && seats == [] && eliminated == [] && highlighted == []
    {
      phase := 0;
      seats := [];
      eliminated := [];
      highlighted := [];
      isAnimating := false;
    }
  }

  // ---------------------------------------------------------------------
  // Finding: a second run without a reset

  /** How many seats the legend shows for a list id. */
  function SeatCount(seats: seq<Seat>, id: string): nat
    decreases |seats|
  {
    if seats == [] then 0
    else SeatCount(seats[..|seats| - 1], id) + (if seats[|seats| - 1].listId == id then 1 else 0)
  }

  lemma {:induction false} SeatCountAppend(a: seq<Seat>, b: seq<Seat>, id: string)
    ensures SeatCount(a + b, id) == SeatCount(a, id) + SeatCount(b, id)
    decreases |b|
  {
    if b != [] {
      assert (a + b)[..|a + b| - 1] == a + b[..|b| - 1];
      SeatCountAppend(a, b[..|b| - 1], id);
    } else {
      assert a + b == a;
    }
  }

  /** The seats after a run as written: the new allocation appended to whatever was shown. */
  function SeatsAfterRunAsWritten(shown: seq<Seat>, allocation: seq<Seat>): (r: seq<Seat>)
    ensures |r| == |shown| + |allocation|
  {
    shown + allocation
  }

  /** The seats after a run as intended: the allocation alone. */
  function SeatsAfterRun(shown: seq<Seat>, allocation: seq<Seat>): (r: seq<Seat>)
    ensures |r| == |allocation|
  {
    allocation
  }

  /** As written, pressing Simulate twice doubles every list's count in the legend. */
  lemma {:induction false} SecondRunDoublesLegend(allocation: seq<Seat>, id: string)
    ensures SeatCount(SeatsAfterRunAsWritten(SeatsAfterRunAsWritten([], allocation), allocation), id)
         == 2 * SeatCount(allocation, id)
  {
    SeatCountAppend([] + allocation, allocation, id);
    assert [] + allocation == allocation;
  }

  /** As intended, a second run shows the same seats as the first. */
  lemma {:induction false} RunTwiceSameAsOnce(shown: seq<Seat>, allocation: seq<Seat>)
    ensures SeatsAfterRun(SeatsAfterRun(shown, allocation), allocation) == SeatsAfterRun(shown, allocation)
  {
  }
}
