/**
 * Average draft position (ADP) accumulation and comparison (lib/adpUtils.ts).
 *
 * A valid pick is turned into a "round.pick" decimal (round 3, pick 4 of the
 * round is 3.04); a league's picks are tallied per player name (running
 * total of decimals and a count); the tallies of several leagues are merged
 * by adding totals and counts; each player's ADP is total / count; and two
 * ADP maps are compared row by row and ordered by the size of the change.
 *
 * Numbers are exact: decimals and totals are `real`s, so neither the binary
 * rounding of `parseFloat` nor `toFixed(2)` is modelled.
 */
module AdpUtils {
  import opened Wrappers
  import opened JsText
  import opened Sleeper

  // ---------------------------------------------------------------------
  // Round / pick-in-round arithmetic and the "round.pp" decimal
  // ---------------------------------------------------------------------

  /** The round of overall pick `pickNo` when each round has `numTeams` picks. */
  function Round(pickNo: nat, numTeams: nat): (r: nat)
    requires pickNo >= 1 && numTeams >= 1
    ensures r >= 1
  {
    (pickNo - 1) / numTeams + 1
  }

  /** The position of overall pick `pickNo` within its round. */
  function PickInRound(pickNo: nat, numTeams: nat): (r: nat)
    requires pickNo >= 1 && numTeams >= 1
    ensures 1 <= r <= numTeams
  {
    (pickNo - 1) % numTeams + 1
  }

  /** Round and pick-in-round give back the overall pick number. */
  lemma RoundTrip(pickNo: nat, numTeams: nat)
    requires pickNo >= 1 && numTeams >= 1
    ensures (Round(pickNo, numTeams) - 1) * numTeams + PickInRound(pickNo, numTeams) == pickNo
  {
    var q, m := (pickNo - 1) / numTeams, (pickNo - 1) % numTeams;
    assert q * numTeams + m == pickNo - 1;
  }

  /** Every (round, pick-in-round) pair with pick-in-round in 1..numTeams is some pick's. */
  lemma FromRoundAndPick(round: nat, pick: nat, numTeams: nat)
    requires round >= 1 && 1 <= pick <= numTeams
    ensures var pickNo := (round - 1) * numTeams + pick;
            pickNo >= 1 && Round(pickNo, numTeams) == round && PickInRound(pickNo, numTeams) == pick
  {
    var pickNo := (round - 1) * numTeams + pick;
    assert pickNo >= 1 by {
      assert (round - 1) * numTeams >= 0;
    }
    DivModUnique(pickNo - 1, numTeams, round - 1, pick - 1);
  }

  /** Division with remainder has exactly one answer. */
  lemma DivModUnique(x: nat, d: nat, q: nat, m: nat)
    requires d >= 1 && m < d && x == q * d + m
    ensures x / d == q && x % d == m
  {
    var q', m' := x / d, x % d;
    assert q' * d + m' == x;
    if q' < q {
      MulAtLeast(q - q', d);
    } else if q' > q {
      MulAtLeast(q' - q, d);
    }
  }

  lemma MulAtLeast(k: nat, d: nat)
    requires k >= 1
    ensures k * d >= d
  {
  }

  function Pow10(k: nat): (r: nat)
    ensures r >= 1
  {
    if k == 0 then 1 else 10 * Pow10(k - 1)
  }

  /** The number of decimal digits of `n` (`n.toString().length`). */
  function DigitCount(n: nat): (r: nat)
    ensures r >= 1 && n < Pow10(r)
    ensures r >= 2 ==> Pow10(r - 1) <= n
  {
    if n < 10 then 1 else 1 + DigitCount(n / 10)
  }

  /** `10 ^ (length of pick.toString().padStart(2, '0'))`. */
  function FractionScale(pick: nat): nat {
    Pow10(if DigitCount(pick) < 2 then 2 else DigitCount(pick))
  }

  /**
   * The number `parseFloat` reads from `${round}.${pick padded to two digits}`:
   * the digits after the point are the padded pick-in-round.
   */
  function DecimalPick(round: nat, pick: nat): real {
    round as real + pick as real / FractionScale(pick) as real
  }

  /** The decimal of overall pick `pickNo` in a league of `numTeams` teams. */
  function PickValue(pickNo: nat, numTeams: nat): real
    requires pickNo >= 1 && numTeams >= 1
  {
    DecimalPick(Round(pickNo, numTeams), PickInRound(pickNo, numTeams))
  }

  /** The decimal of a pick lies strictly between its round and the next round. */
  lemma PickValueWithinRound(pickNo: nat, numTeams: nat)
    requires pickNo >= 1 && numTeams >= 1
    ensures Round(pickNo, numTeams) as real < PickValue(pickNo, numTeams) < (Round(pickNo, numTeams) + 1) as real
  {
    var p := PickInRound(pickNo, numTeams);
    var d := DigitCount(p);
    Pow10Monotone(d, if d < 2 then 2 else d);
    FractionBelowOne(p, FractionScale(p));
  }

  lemma FractionBelowOne(a: nat, b: nat)
    requires 1 <= a < b
    ensures 0.0 < a as real / b as real < 1.0
  {
    assert a as real / b as real * b as real == a as real;
  }

  /** With at most 99 teams the decimal is round + pick/100: an integer number of hundredths. */
  lemma PickValueHundredths(pickNo: nat, numTeams: nat)
    requires pickNo >= 1 && 1 <= numTeams <= 99
    ensures PickValue(pickNo, numTeams)
            == (Round(pickNo, numTeams) * 100 + PickInRound(pickNo, numTeams)) as real / 100.0
  {
    var p := PickInRound(pickNo, numTeams);
    assert DigitCount(p) <= 2 by {
      if DigitCount(p) >= 3 {
        assert Pow10(DigitCount(p) - 1) >= Pow10(2) by { Pow10Monotone(2, DigitCount(p) - 1); }
      }
    }
    assert FractionScale(p) == 100;
  }

  lemma Pow10Monotone(i: nat, j: nat)
    requires i <= j
    ensures Pow10(i) <= Pow10(j)
  {
    if i < j { Pow10Monotone(i, j - 1); }
  }

  /** The decimal of a pick in hundredths, for at most 99 teams. */
  function Hundredths(pickNo: nat, numTeams: nat): nat
    requires pickNo >= 1 && numTeams >= 1
  {
    Round(pickNo, numTeams) * 100 + PickInRound(pickNo, numTeams)
  }

  /** The next pick is one slot further in the same round, or the first slot of the next round. */
  lemma NextPick(pickNo: nat, numTeams: nat)
    requires pickNo >= 1 && 1 <= numTeams <= 99
    ensures Hundredths(pickNo, numTeams) < Hundredths(pickNo + 1, numTeams)
  {
    var r, p := Round(pickNo, numTeams), PickInRound(pickNo, numTeams);
    RoundTrip(pickNo, numTeams);
    if p < numTeams {
      DivModUnique(pickNo, numTeams, r - 1, p);
    } else {
      assert pickNo == r * numTeams;
      DivModUnique(pickNo, numTeams, r, 0);
    }
  }

  /**
   * With at most 99 teams a later pick always has a larger decimal, so the
   * encoding keeps draft order and is injective.
   */
  lemma {:induction false} PickValueMonotone(pickNo1: nat, pickNo2: nat, numTeams: nat)
    requires 1 <= pickNo1 < pickNo2 && 1 <= numTeams <= 99
    ensures PickValue(pickNo1, numTeams) < PickValue(pickNo2, numTeams)
    decreases pickNo2 - pickNo1
  {
    NextPick(pickNo1, numTeams);
    if pickNo1 + 1 < pickNo2 {
      PickValueMonotone(pickNo1 + 1, pickNo2, numTeams);
    }
    PickValueHundredths(pickNo1, numTeams);
    PickValueHundredths(pickNo1 + 1, numTeams);
  }

  lemma PickValueInjective(pickNo1: nat, pickNo2: nat, numTeams: nat)
    requires pickNo1 >= 1 && pickNo2 >= 1 && 1 <= numTeams <= 99
    requires PickValue(pickNo1, numTeams) == PickValue(pickNo2, numTeams)
    ensures pickNo1 == pickNo2
  {
    if pickNo1 < pickNo2 {
      PickValueMonotone(pickNo1, pickNo2, numTeams);
    } else if pickNo2 < pickNo1 {
      PickValueMonotone(pickNo2, pickNo1, numTeams);
    }
  }

  /**
   * From 100 teams on, a three-digit pick-in-round collides with a two-digit
   * one: picks 10 and 100 of a 100-team round both read as 1.1.
   */
  lemma PickValueCollidesAtHundredTeams()
    ensures PickValue(10, 100) == PickValue(100, 100)
  {
    TwoAndThreeDigitScales();
    assert PickValue(10, 100) == DecimalPick(1, 10);
    assert PickValue(100, 100) == DecimalPick(1, 100);
  }

  lemma TwoAndThreeDigitScales()
    ensures FractionScale(10) == 100 && FractionScale(100) == 1000
  {
    assert DigitCount(1) == 1;
    assert DigitCount(10) == 1 + DigitCount(1);
    assert DigitCount(100) == 1 + DigitCount(10);
    assert Pow10(1) == 10;
    assert Pow10(2) == 10 * Pow10(1);
    assert Pow10(3) == 10 * Pow10(2);
  }

  // ---------------------------------------------------------------------
  // Which picks count, and under which name
  // ---------------------------------------------------------------------

  function FirstName(p: DraftPick): string {
    if p.metadata.Some? then p.metadata.value.firstName.GetOr("") else ""
  }

  function LastName(p: DraftPick): string {
    if p.metadata.Some? then p.metadata.value.lastName.GetOr("") else ""
  }

  /** `${first_name || ''} ${last_name || ''}`.trim() */
  function FullName(p: DraftPick): string {
    Trim(FirstName(p) + " " + LastName(p))
  }

  /** The name is empty exactly when both name parts are absent or white space. */
  lemma FullNameEmptyIff(p: DraftPick)
    ensures FullName(p) == [] <==> AllWhitespace(FirstName(p)) && AllWhitespace(LastName(p))
  {
    var f, l := FirstName(p), LastName(p);
    var s := f + " " + l;
    TrimEmptyIff(s);
    if AllWhitespace(s) {
      assert forall i :: 0 <= i < |f| ==> s[i] == f[i];
      assert forall i :: 0 <= i < |l| ==> s[|f| + 1 + i] == l[i];
    }
  }

  /** A pick takes part in the tally: it has a non-empty name and a truthy `pick_no`. */
  predicate Counts(p: DraftPick) {
    FullName(p) != [] && p.pickNo.Some? && p.pickNo.value != 0
  }

  /** The decimal a counting pick adds to its player's total. */
  function ValueOf(p: DraftPick, numTeams: nat): real
    requires Counts(p) && numTeams >= 1
  {
    PickValue(p.pickNo.value, numTeams)
  }

  /** The picks that take part, in order. */
  function CountingPicks(picks: seq<DraftPick>): (r: seq<DraftPick>)
    ensures forall p :: p in r ==> p in picks && Counts(p)
    ensures forall p :: p in picks && Counts(p) ==> p in r
    ensures |r| <= |picks|
  {
    if picks == [] then []
    else
      var rest := CountingPicks(picks[..|picks| - 1]);
      if Counts(picks[|picks| - 1]) then rest + [picks[|picks| - 1]] else rest
  }

  /** The names of the counting picks. */
  function PlayerNames(picks: seq<DraftPick>): set<string> {
    if picks == [] then {}
    else
      var rest := PlayerNames(picks[..|picks| - 1]);
      if Counts(picks[|picks| - 1]) then rest + {FullName(picks[|picks| - 1])} else rest
  }

  /** The number of counting picks named `name`. */
  function PickCount(picks: seq<DraftPick>, name: string): nat {
    if picks == [] then 0
    else
      var p := picks[|picks| - 1];
      PickCount(picks[..|picks| - 1], name) + if Counts(p) && FullName(p) == name then 1 else 0
  }

  /** The sum of the decimals of the counting picks named `name`. */
  function PickTotal(picks: seq<DraftPick>, name: string, numTeams: nat): real
    requires numTeams >= 1
  {
    if picks == [] then 0.0
    else
      var p := picks[|picks| - 1];
      PickTotal(picks[..|picks| - 1], name, numTeams) + if Counts(p) && FullName(p) == name then ValueOf(p, numTeams) else 0.0
  }

  /** A name occurs exactly when it has a counting pick; a name with none has total 0. */
  lemma {:induction false} PlayerNamesCount(picks: seq<DraftPick>, name: string, numTeams: nat)
    requires numTeams >= 1
    ensures name in PlayerNames(picks) <==> PickCount(picks, name) >= 1
    ensures name !in PlayerNames(picks) ==> PickTotal(picks, name, numTeams) == 0.0
  {
    if picks != [] {
      PlayerNamesCount(picks[..|picks| - 1], name, numTeams);
    }
  }

  // ---------------------------------------------------------------------
  // One league: calcAverageADP
  // ---------------------------------------------------------------------

  /** A player's running tally. */
  datatype PlayerADP = PlayerADP(name: string, totalPick: real, count: nat)

  type TallyMap = map<string, PlayerADP>

  /**
   * What `calcAverageADP` computes, stated per name: one entry per name of a
   * counting pick, holding the number of such picks and the sum of their decimals.
   */
  function Tally(picks: seq<DraftPick>, numTeams: nat): TallyMap
    requires numTeams >= 1
  {
    map n | n in PlayerNames(picks) :: PlayerADP(n, PickTotal(picks, n, numTeams), PickCount(picks, n))
  }

  function CountIn(t: TallyMap, name: string): nat {
    if name in t then t[name].count else 0
  }

  function TotalIn(t: TallyMap, name: string): real {
    if name in t then t[name].totalPick else 0.0
  }

  /** Every entry is filed under its own name. */
  predicate WellNamed(t: TallyMap) {
    forall n :: n in t ==> t[n].name == n
  }

  /**
   * Every name's count is its number of counting picks and its total the sum
   * of their decimals; a name without an entry has count 0 and total 0.
   */
  lemma TallyLookup(picks: seq<DraftPick>, numTeams: nat, name: string)
    requires numTeams >= 1
    ensures CountIn(Tally(picks, numTeams), name) == PickCount(picks, name)
    ensures TotalIn(Tally(picks, numTeams), name) == PickTotal(picks, name, numTeams)
    ensures name in Tally(picks, numTeams) ==> Tally(picks, numTeams)[name].count >= 1
  {
    PlayerNamesCount(picks, name, numTeams);
  }

  /** `t` with one more pick of decimal `v` for player `n`, creating the entry if it is missing. */
  function AddPick(t: TallyMap, n: string, v: real): TallyMap {
    var e := if n in t then t[n] else PlayerADP(n, 0.0, 0);
    t[n := e.(totalPick := e.totalPick + v, count := e.count + 1)]
  }

  /** Appending one pick: a non-counting pick changes nothing, a counting one updates only its own entry. */
  lemma TallySnoc(picks: seq<DraftPick>, p: DraftPick, numTeams: nat)
    requires numTeams >= 1
    ensures Tally(picks + [p], numTeams)
            == if Counts(p) then AddPick(Tally(picks, numTeams), FullName(p), ValueOf(p, numTeams)) else Tally(picks, numTeams)
  {
    assert (picks + [p])[..|picks|] == picks;
    if Counts(p) {
      PlayerNamesCount(picks, FullName(p), numTeams);
    }
  }

  /**
   * `calcAverageADP(picks, numTeams)`: one pass over the picks, creating a
   * player's entry on its first counting pick and adding each counting
   * pick's decimal and 1 to it.
   */
  method CalcAverageADP(picks: seq<DraftPick>, numTeams: nat) returns (data: TallyMap)
    requires numTeams >= 1
    ensures data == Tally(picks, numTeams)
  {
    data := map[];
    for i := 0 to |picks|
      invariant data == Tally(picks[..i], numTeams)
    {
      TallySnoc(picks[..i], picks[i], numTeams);
      assert picks[..i + 1] == picks[..i] + [picks[i]];
      var pick := picks[i];
      var fullName := FullName(pick);
      var pickNo := pick.pickNo;
      if fullName == [] || pickNo.None? || pickNo.value == 0 {
        continue;
      }
      var round := (pickNo.value - 1) / numTeams + 1;
      var pickInRound := (pickNo.value - 1) % numTeams + 1;
      var decimalPick := DecimalPick(round, pickInRound);
      if fullName !in data {
        data := data[fullName := PlayerADP(fullName, 0.0, 0)];
      }
      var e := data[fullName];
      data := data[fullName := e.(totalPick := e.totalPick + decimalPick, count := e.count + 1)];
    }
    assert picks[..|picks|] == picks;
  }

  /** Picks that do not count are irrelevant: the tally of all picks is the tally of the counting ones. */
  lemma {:induction false} TallyOfCountingPicks(picks: seq<DraftPick>, numTeams: nat)
    requires numTeams >= 1
    ensures Tally(CountingPicks(picks), numTeams) == Tally(picks, numTeams)
  {
    if picks != [] {
      var prefix, p := picks[..|picks| - 1], picks[|picks| - 1];
      assert picks == prefix + [p];
      TallyOfCountingPicks(prefix, numTeams);
      TallySnoc(prefix, p, numTeams);
      TallySnoc(CountingPicks(prefix), p, numTeams);
    }
  }

  lemma {:induction false} CountingPicksConcat(a: seq<DraftPick>, b: seq<DraftPick>)
    ensures CountingPicks(a + b) == CountingPicks(a) + CountingPicks(b)
  {
    if b == [] {
      assert a + b == a;
    } else {
      var b', p := b[..|b| - 1], b[|b| - 1];
      assert (a + b)[..|a + b| - 1] == a + b';
      CountingPicksConcat(a, b');
    }
  }

  /** Inserting a pick that does not count anywhere in the list leaves the tally unchanged. */
  lemma InvalidPickChangesNothing(before: seq<DraftPick>, p: DraftPick, after: seq<DraftPick>, numTeams: nat)
    requires numTeams >= 1 && !Counts(p)
    ensures Tally(before + [p] + after, numTeams) == Tally(before + after, numTeams)
  {
    CountingPicksConcat(before + [p], after);
    CountingPicksConcat(before, [p]);
    CountingPicksConcat(before, after);
    assert (before + [p])[..|before|] == before;
    TallyOfCountingPicks(before + [p] + after, numTeams);
    TallyOfCountingPicks(before + after, numTeams);
  }

  /** The sum of the counts of a tally. */
  ghost function SumCounts(t: TallyMap): nat
    decreases |t|
  {
    if t == map[] then 0
    else
      var n :| n in t;
      assert |t - {n}| < |t| by { assert (t - {n}).Keys == t.Keys - {n}; }
      t[n].count + SumCounts(t - {n})
  }

  lemma {:induction false} SumCountsRemove(t: TallyMap, k: string)
    requires k in t
    ensures SumCounts(t) == t[k].count + SumCounts(t - {k})
    decreases |t|
  {
    var n :| n in t && SumCounts(t) == t[n].count + SumCounts(t - {n});
    if n != k {
      assert |t - {n}| < |t| by { assert (t - {n}).Keys == t.Keys - {n}; }
      assert |t - {k}| < |t| by { assert (t - {k}).Keys == t.Keys - {k}; }
      SumCountsRemove(t - {n}, k);
      SumCountsRemove(t - {k}, n);
      assert t - {n} - {k} == t - {k} - {n};
    }
  }

  lemma SumCountsUpdate(t: TallyMap, k: string, e: PlayerADP)
    ensures SumCounts(t[k := e]) + CountIn(t, k) == SumCounts(t) + e.count
  {
    SumCountsRemove(t[k := e], k);
    if k in t {
      SumCountsRemove(t, k);
      assert t[k := e] - {k} == t - {k};
    } else {
      assert t[k := e] - {k} == t;
    }
  }

  /** A counting pick adds exactly one to the sum of the counts. */
  lemma SumCountsAddOne(t: TallyMap, n: string, v: real)
    ensures SumCounts(AddPick(t, n, v)) == SumCounts(t) + 1
  {
    var e := if n in t then t[n] else PlayerADP(n, 0.0, 0);
    SumCountsUpdate(t, n, e.(totalPick := e.totalPick + v, count := e.count + 1));
  }

  /** No pick is lost or counted twice: the counts add up to the number of counting picks. */
  lemma {:induction false} TallyCountsAddUp(picks: seq<DraftPick>, numTeams: nat)
    requires numTeams >= 1
    ensures SumCounts(Tally(picks, numTeams)) == |CountingPicks(picks)|
  {
    if picks == [] {
      assert Tally(picks, numTeams) == map[];
    } else {
      var prefix, p := picks[..|picks| - 1], picks[|picks| - 1];
      assert picks == prefix + [p];
      TallyCountsAddUp(prefix, numTeams);
      TallySnoc(prefix, p, numTeams);
      if Counts(p) {
        SumCountsAddOne(Tally(prefix, numTeams), FullName(p), ValueOf(p, numTeams));
      }
    }
  }

  // ---------------------------------------------------------------------
  // Several leagues: getADPMap
  // ---------------------------------------------------------------------

  /**
   * The team count used for a league: the first pick's `draft_slot`, or 12
   * when there is no pick or that field is absent or 0.
   */
  function LeagueTeamCount(picks: seq<DraftPick>): (n: nat)
    ensures n >= 1
    ensures picks != [] && picks[0].draftSlot.Some? && picks[0].draftSlot.value != 0 ==> n == picks[0].draftSlot.value
    ensures (picks == [] || picks[0].draftSlot.None? || picks[0].draftSlot == Some(0)) ==> n == 12
  {
    if |picks| > 0 && picks[0].draftSlot.Some? && picks[0].draftSlot.value != 0 then picks[0].draftSlot.value else 12
  }

  /**
   * In a pick list ordered by pick number the first pick sits in slot 1, so
   * the team count is 1: every pick is its own round and reads as pickNo.01.
   */
  lemma FirstSlotOneMeansOneTeam(picks: seq<DraftPick>, pickNo: nat)
    requires picks != [] && picks[0].draftSlot == Some(1) && pickNo >= 1
    ensures LeagueTeamCount(picks) == 1
    ensures PickValue(pickNo, LeagueTeamCount(picks)) == pickNo as real + 0.01
  {
    assert Round(pickNo, 1) == pickNo && PickInRound(pickNo, 1) == 1;
    assert FractionScale(1) == 100;
  }

  /** A league's tally, with its own team count. */
  function LeagueTally(picks: seq<DraftPick>): TallyMap {
    Tally(picks, LeagueTeamCount(picks))
  }

  /** Adds the entry `e` of one league's tally into the accumulated entry for `name`. */
  function Combine(acc: TallyMap, name: string, e: PlayerADP): PlayerADP {
    var base := if name in acc then acc[name] else PlayerADP(name, 0.0, 0);
    base.(totalPick := base.totalPick + e.totalPick, count := base.count + e.count)
  }

  /**
   * Folding one league's tally into the accumulated tally: the names are
   * the union and each count and total is the sum of the two.
   */
  function MergeInto(acc: TallyMap, t: TallyMap): TallyMap {
    map n | n in acc.Keys + t.Keys :: if n in t then Combine(acc, n, t[n]) else acc[n]
  }

  lemma MergeIntoSpec(acc: TallyMap, t: TallyMap)
    ensures MergeInto(acc, t).Keys == acc.Keys + t.Keys
    ensures forall n :: CountIn(MergeInto(acc, t), n) == CountIn(acc, n) + CountIn(t, n)
    ensures forall n :: TotalIn(MergeInto(acc, t), n) == TotalIn(acc, n) + TotalIn(t, n)
    ensures WellNamed(acc) ==> WellNamed(MergeInto(acc, t))
  {
  }

  /** The merged tally of the leagues, in the order given. */
  function MergeLeagues(leagues: seq<seq<DraftPick>>): TallyMap {
    if leagues == [] then map[]
    else MergeInto(MergeLeagues(leagues[..|leagues| - 1]), LeagueTally(leagues[|leagues| - 1]))
  }

  /** The number of counting picks named `name` over all leagues. */
  function CountAcross(leagues: seq<seq<DraftPick>>, name: string): nat {
    if leagues == [] then 0
    else CountAcross(leagues[..|leagues| - 1], name) + PickCount(leagues[|leagues| - 1], name)
  }

  /** The sum of the decimals of those picks, each league with its own team count. */
  function TotalAcross(leagues: seq<seq<DraftPick>>, name: string): real {
    if leagues == [] then 0.0
    else
      var l := leagues[|leagues| - 1];
      TotalAcross(leagues[..|leagues| - 1], name) + PickTotal(l, name, LeagueTeamCount(l))
  }

  /**
   * Merging sums raw totals and counts: a name is present exactly when it
   * has a counting pick in some league, and its entry holds the number of
   * those picks and the sum of their decimals.
   */
  lemma {:induction false} MergeLeaguesMeaning(leagues: seq<seq<DraftPick>>)
    ensures WellNamed(MergeLeagues(leagues))
    ensures forall n :: n in MergeLeagues(leagues) <==> CountAcross(leagues, n) >= 1
    ensures forall n :: n in MergeLeagues(leagues) ==>
              MergeLeagues(leagues)[n] == PlayerADP(n, TotalAcross(leagues, n), CountAcross(leagues, n))
    ensures forall n :: n !in MergeLeagues(leagues) ==> TotalAcross(leagues, n) == 0.0
  {
    if leagues != [] {
      var prefix, l := leagues[..|leagues| - 1], leagues[|leagues| - 1];
      MergeLeaguesMeaning(prefix);
      MergeIntoSpec(MergeLeagues(prefix), LeagueTally(l));
      var m := MergeLeagues(leagues);
      forall n
        ensures n in m <==> CountAcross(leagues, n) >= 1
        ensures n in m ==> m[n] == PlayerADP(n, TotalAcross(leagues, n), CountAcross(leagues, n))
        ensures n !in m ==> TotalAcross(leagues, n) == 0.0
      {
        TallyLookup(l, LeagueTeamCount(l), n);
        assert CountIn(m, n) == CountAcross(leagues, n);
        assert TotalIn(m, n) == TotalAcross(leagues, n);
      }
    }
  }

  lemma {:induction false} AcrossConcat(a: seq<seq<DraftPick>>, b: seq<seq<DraftPick>>, name: string)
    ensures CountAcross(a + b, name) == CountAcross(a, name) + CountAcross(b, name)
    ensures TotalAcross(a + b, name) == TotalAcross(a, name) + TotalAcross(b, name)
  {
    if b == [] {
      assert a + b == a;
    } else {
      assert (a + b)[..|a + b| - 1] == a + b[..|b| - 1];
      AcrossConcat(a, b[..|b| - 1], name);
    }
  }

  /** The per-name sums do not depend on the order of the leagues. */
  lemma {:induction false} AcrossPermutation(a: seq<seq<DraftPick>>, b: seq<seq<DraftPick>>, name: string)
    requires multiset(a) == multiset(b)
    ensures CountAcross(a, name) == CountAcross(b, name)
    ensures TotalAcross(a, name) == TotalAcross(b, name)
    decreases |a|
  {
    if a != [] {
      var prefix, l := a[..|a| - 1], a[|a| - 1];
      assert a == prefix + [l];
      assert l in multiset(b);
      var j :| 0 <= j < |b| && b[j] == l;
      var rest := b[..j] + b[j + 1..];
      assert b == b[..j] + [l] + b[j + 1..];
      assert multiset(rest) == multiset(prefix) by {
        assert multiset(b) == multiset(b[..j]) + multiset([l]) + multiset(b[j + 1..]);
        assert multiset(rest) == multiset(b[..j]) + multiset(b[j + 1..]);
        assert multiset(rest) == multiset(b) - multiset([l]);
        assert multiset(prefix) == multiset(a) - multiset([l]);
      }
      AcrossPermutation(prefix, rest, name);
      AcrossConcat(b[..j] + [l], b[j + 1..], name);
      AcrossConcat(b[..j], [l], name);
      AcrossConcat(b[..j], b[j + 1..], name);
      assert [l][..0] == [];
    }
  }

  /** The merged tally is the same whatever the order of the leagues. */
  lemma MergeLeaguesOrderIndependent(a: seq<seq<DraftPick>>, b: seq<seq<DraftPick>>)
    requires multiset(a) == multiset(b)
    ensures MergeLeagues(a) == MergeLeagues(b)
  {
    MergeLeaguesMeaning(a);
    MergeLeaguesMeaning(b);
    forall n {
      AcrossPermutation(a, b, n);
    }
  }

  /** `r` is `acc` with the entries of `t` outside `pending` folded in. */
  predicate PartlyMerged(acc: TallyMap, t: TallyMap, pending: set<string>, r: TallyMap) {
    && pending <= t.Keys
    && r.Keys == acc.Keys + (t.Keys - pending)
    && forall n :: n in r ==> r[n] == if n in t && n !in pending then Combine(acc, n, t[n]) else acc[n]
  }

  lemma PartlyMergedStep(acc: TallyMap, t: TallyMap, pending: set<string>, r: TallyMap, name: string)
    requires PartlyMerged(acc, t, pending, r) && name in pending
    ensures PartlyMerged(acc, t, pending - {name}, r[name := Combine(r, name, t[name])])
  {
  }

  lemma PartlyMergedEnds(acc: TallyMap, t: TallyMap, r: TallyMap)
    ensures PartlyMerged(acc, t, t.Keys, acc)
    ensures PartlyMerged(acc, t, {}, r) ==> r == MergeInto(acc, t)
  {
  }

  /**
   * The inner loop of `getADPMap`: for each name of one league's tally,
   * create the group entry if missing and add the league's total and count.
   */
  method AddLeague(adpMap: TallyMap, leagueADP: TallyMap) returns (r: TallyMap)
    ensures r == MergeInto(adpMap, leagueADP)
  {
    r := adpMap;
    var pending := leagueADP.Keys;
    PartlyMergedEnds(adpMap, leagueADP, r);
    while pending != {}
      invariant PartlyMerged(adpMap, leagueADP, pending, r)
      decreases |pending|
    {
      var name :| name in pending;
      PartlyMergedStep(adpMap, leagueADP, pending, r, name);
      ghost var before := r;
      if name !in r {
        r := r[name := PlayerADP(name, 0.0, 0)];
      }
      var e := r[name];
      r := r[name := e.(totalPick := e.totalPick + leagueADP[name].totalPick,
                        count := e.count + leagueADP[name].count)];
      assert r == before[name := Combine(before, name, leagueADP[name])];
      pending := pending - {name};
    }
    PartlyMergedEnds(adpMap, leagueADP, r);
  }

  /** The last loop of `getADPMap`: each name's total divided by its count. */
  method Averages(adpMap: TallyMap) returns (finalMap: map<string, real>)
    requires forall n :: n in adpMap ==> adpMap[n].count >= 1
    ensures finalMap.Keys == adpMap.Keys
    ensures forall n :: n in finalMap ==> finalMap[n] == adpMap[n].totalPick / adpMap[n].count as real
  {
    finalMap := map[];
    var pending := adpMap.Keys;
    while pending != {}
      invariant pending <= adpMap.Keys
      invariant finalMap.Keys == adpMap.Keys - pending
      invariant forall n :: n in finalMap ==> finalMap[n] == adpMap[n].totalPick / adpMap[n].count as real
      decreases |pending|
    {
      var name :| name in pending;
      finalMap := finalMap[name := adpMap[name].totalPick / adpMap[name].count as real];
      pending := pending - {name};
    }
  }

  /**
   * `getADPMap`, with each league's picks given instead of fetched: tally
   * each league, add its totals and counts into the group tally, then divide.
   * A name is in the result exactly when it has a counting pick in some
   * league, and its ADP is the mean of all those picks' decimals.
   */
  method GetADPMap(leagues: seq<seq<DraftPick>>) returns (finalMap: map<string, real>)
    ensures forall n :: n in finalMap <==> CountAcross(leagues, n) >= 1
    ensures forall n :: n in finalMap ==>
              finalMap[n] == TotalAcross(leagues, n) / CountAcross(leagues, n) as real
  {
    var adpMap: TallyMap := map[];
    for i := 0 to |leagues|
      invariant adpMap == MergeLeagues(leagues[..i])
    {
      assert leagues[..i + 1][..i] == leagues[..i];
      var picks := leagues[i];
      var numTeams := LeagueTeamCount(picks);
      var leagueADP := CalcAverageADP(picks, numTeams);
      adpMap := AddLeague(adpMap, leagueADP);
    }
    assert leagues[..|leagues|] == leagues;
    MergeLeaguesMeaning(leagues);
    finalMap := Averages(adpMap);
  }

  // ---------------------------------------------------------------------
  // Two groups: compareADPs
  // ---------------------------------------------------------------------

  /** One row of the comparison; `None` is JavaScript's `null`. */
  datatype PlayerResult = PlayerResult(name: string, adpA: Option<real>, adpB: Option<real>, delta: Option<real>)

  /** The row built for `name`: each side's ADP if present, and `delta = adpB - adpA` when both are. */
  function ResultFor(adpA: map<string, real>, adpB: map<string, real>, name: string): (r: PlayerResult)
    ensures r.name == name
    ensures (r.adpA.Some? <==> name in adpA) && (r.adpA.Some? ==> r.adpA.value == adpA[name])
    ensures (r.adpB.Some? <==> name in adpB) && (r.adpB.Some? ==> r.adpB.value == adpB[name])
    ensures (r.delta.Some? <==> name in adpA && name in adpB)
    ensures r.delta.Some? ==> r.delta.value == adpB[name] - adpA[name]
  {
    var a := if name in adpA then Some(adpA[name]) else None;
    var b := if name in adpB then Some(adpB[name]) else None;
    PlayerResult(name, a, b, if a.Some? && b.Some? then Some(b.value - a.value) else None)
  }

  /** The row seen from the other side: the two ADPs swapped and the delta negated. */
  function Swapped(r: PlayerResult): PlayerResult {
    PlayerResult(r.name, r.adpB, r.adpA, if r.delta.Some? then Some(-r.delta.value) else None)
  }

  /** Comparing B with A instead of A with B swaps the sides of every row and negates every delta. */
  lemma ResultForAntisymmetric(adpA: map<string, real>, adpB: map<string, real>, name: string)
    ensures ResultFor(adpB, adpA, name) == Swapped(ResultFor(adpA, adpB, name))
    ensures Swapped(Swapped(ResultFor(adpA, adpB, name))) == ResultFor(adpA, adpB, name)
  {
  }

  function Abs(x: real): real {
    if x < 0.0 then -x else x
  }

  /**
   * The sort callback: 0 when either delta is null, otherwise |y.delta| - |x.delta|
   * (positive means `x` belongs after `y`).
   */
  function CompareResults(x: PlayerResult, y: PlayerResult): real {
    if x.delta.None? || y.delta.None? then 0.0 else Abs(y.delta.value) - Abs(x.delta.value)
  }

  /**
   * The callback is antisymmetric, and a row without a delta compares equal
   * to every row, in either argument position.
   */
  lemma CompareResultsLaws(x: PlayerResult, y: PlayerResult)
    ensures CompareResults(x, y) == -CompareResults(y, x)
    ensures x.delta.None? ==> CompareResults(x, y) == 0.0 && CompareResults(y, x) == 0.0
    ensures x.delta.Some? && y.delta.Some? ==> (CompareResults(x, y) <= 0.0 <==> Magnitude(x) >= Magnitude(y))
  {
  }

  /** No two neighbours are out of order according to the callback. */
  predicate NeighboursInOrder(s: seq<PlayerResult>) {
    forall i :: 0 <= i < |s| - 1 ==> CompareResults(s[i], s[i + 1]) <= 0.0
  }

  /** The absolute change of a row; rows without a delta have none. */
  function Magnitude(r: PlayerResult): real {
    if r.delta.Some? then Abs(r.delta.value) else 0.0
  }

  /** Largest absolute delta first. */
  predicate ByMagnitudeDescending(s: seq<PlayerResult>) {
    forall i, j :: 0 <= i < j < |s| ==> Magnitude(s[i]) >= Magnitude(s[j])
  }

  /** When every row has a delta, neighbour order is full order: largest |delta| first. */
  lemma {:induction false} NeighboursGiveOrder(s: seq<PlayerResult>)
    requires forall i :: 0 <= i < |s| ==> s[i].delta.Some?
    requires NeighboursInOrder(s)
    ensures ByMagnitudeDescending(s)
  {
    if |s| > 1 {
      var prefix := s[..|s| - 1];
      assert NeighboursInOrder(prefix) by {
        forall i | 0 <= i < |prefix| - 1 ensures CompareResults(prefix[i], prefix[i + 1]) <= 0.0 {
          assert prefix[i] == s[i] && prefix[i + 1] == s[i + 1];
        }
      }
      NeighboursGiveOrder(prefix);
      forall i, j | 0 <= i < j < |s| ensures Magnitude(s[i]) >= Magnitude(s[j]) {
        if j < |s| - 1 {
          assert s[i] == prefix[i] && s[j] == prefix[j];
        } else {
          assert CompareResults(s[|s| - 2], s[|s| - 1]) <= 0.0;
          if i < |s| - 2 {
            assert s[i] == prefix[i] && s[|s| - 2] == prefix[|s| - 2];
          }
        }
      }
    }
  }

  /**
   * `result.sort(callback)`. The callback is not a consistent order when some
   * delta is null, so the order JavaScript gives is up to the engine; this is
   * a stable insertion sort, one admissible engine. It permutes the rows and
   * leaves no neighbours out of order.
   */
  method SortResults(a: array<PlayerResult>)
    modifies a
    ensures multiset(a[..]) == old(multiset(a[..]))
    ensures NeighboursInOrder(a[..])
  {
    for j := 0 to a.Length
      invariant multiset(a[..]) == old(multiset(a[..]))
      invariant InOrderBelow(a[..], j)
    {
      InsertAt(a, j);
    }
  }

  /** The first `j` rows have no neighbours out of order. */
  predicate InOrderBelow(s: seq<PlayerResult>, j: int) {
    forall m :: 0 <= m < j - 1 && m + 1 < |s| ==> CompareResults(s[m], s[m + 1]) <= 0.0
  }

  /**
   * Midway through moving row `j` down: it sits at `k`, the rows below `k`
   * and the rows from `k` to `j` are in order, and the row below `k` may
   * precede the row above it.
   */
  predicate Inserting(s: seq<PlayerResult>, k: int, j: int) {
    && 0 <= k <= j < |s|
    && (forall m :: 0 <= m < k - 1 ==> CompareResults(s[m], s[m + 1]) <= 0.0)
    && (forall m :: k <= m < j ==> CompareResults(s[m], s[m + 1]) <= 0.0)
    && (0 < k < j ==> CompareResults(s[k - 1], s[k + 1]) <= 0.0)
  }

  lemma InsertingStarts(s: seq<PlayerResult>, j: int)
    requires 0 <= j < |s| && InOrderBelow(s, j)
    ensures Inserting(s, j, j)
  {
  }

  /** Swapping the moving row with the row below it keeps the pass on track. */
  lemma InsertingSwap(s: seq<PlayerResult>, k: int, j: int)
    requires Inserting(s, k, j) && k > 0 && CompareResults(s[k - 1], s[k]) > 0.0
    ensures Inserting(s[k - 1 := s[k]][k := s[k - 1]], k - 1, j)
    ensures multiset(s[k - 1 := s[k]][k := s[k - 1]]) == multiset(s)
  {
  }

  lemma InsertingEnds(s: seq<PlayerResult>, k: int, j: int)
    requires Inserting(s, k, j) && (k == 0 || CompareResults(s[k - 1], s[k]) <= 0.0)
    ensures InOrderBelow(s, j + 1)
  {
  }

  /** One pass of the insertion sort: moves `a[j]` down past the rows the callback puts after it. */
  method InsertAt(a: array<PlayerResult>, j: int)
    requires 0 <= j < a.Length && InOrderBelow(a[..], j)
    modifies a
    ensures multiset(a[..]) == old(multiset(a[..]))
    ensures InOrderBelow(a[..], j + 1)
  {
    var k := j;
    InsertingStarts(a[..], j);
    while k > 0 && CompareResults(a[k - 1], a[k]) > 0.0
      invariant Inserting(a[..], k, j)
      invariant multiset(a[..]) == old(multiset(a[..]))
    {
      InsertingSwap(a[..], k, j);
      ghost var before := a[..];
      a[k - 1], a[k] := a[k], a[k - 1];
      assert a[..] == before[k - 1 := before[k]][k := before[k - 1]];
      k := k - 1;
    }
    InsertingEnds(a[..], k, j);
  }

  /** The names of the rows. */
  function ResultNames(s: seq<PlayerResult>): set<string> {
    set r | r in s :: r.name
  }

  /** As many rows as names: no name has two rows. */
  lemma {:induction false} OneRowPerName(s: seq<PlayerResult>)
    requires |ResultNames(s)| == |s|
    ensures forall i, j :: 0 <= i < j < |s| ==> s[i].name != s[j].name
  {
    if s != [] {
      var prefix, r := s[..|s| - 1], s[|s| - 1];
      assert s == prefix + [r];
      assert ResultNames(s) == ResultNames(prefix) + {r.name};
      NamesAtMostRows(prefix);
      OneRowPerName(prefix);
      forall i, j | 0 <= i < j < |s| ensures s[i].name != s[j].name {
        if j < |s| - 1 {
          assert s[i] == prefix[i] && s[j] == prefix[j];
        } else {
          assert s[i] in prefix;
        }
      }
    }
  }

  lemma {:induction false} NamesAtMostRows(s: seq<PlayerResult>)
    ensures |ResultNames(s)| <= |s|
  {
    if s != [] {
      var prefix := s[..|s| - 1];
      assert s == prefix + [s[|s| - 1]];
      assert ResultNames(s) == ResultNames(prefix) + {s[|s| - 1].name};
      NamesAtMostRows(prefix);
    }
  }

  /** Reordering rows keeps their number, their names and each row's contents. */
  lemma PermutedRows(s: seq<PlayerResult>, t: seq<PlayerResult>)
    requires multiset(s) == multiset(t)
    ensures |s| == |t|
    ensures ResultNames(s) == ResultNames(t)
    ensures forall r :: r in s <==> r in t
  {
    assert |multiset(s)| == |multiset(t)|;
    assert forall r :: r in s <==> r in multiset(s);
    assert forall r :: r in t <==> r in multiset(t);
  }

  /** Every row is the one `ResultFor` builds for its name. */
  predicate RowsFor(adpA: map<string, real>, adpB: map<string, real>, s: seq<PlayerResult>) {
    forall r :: r in s ==> r == ResultFor(adpA, adpB, r.name)
  }

  /** With the same names on both sides every row has a delta. */
  lemma SameNamesAllDeltas(adpA: map<string, real>, adpB: map<string, real>, s: seq<PlayerResult>)
    requires adpA.Keys == adpB.Keys && ResultNames(s) == adpA.Keys + adpB.Keys
    requires RowsFor(adpA, adpB, s)
    ensures forall i :: 0 <= i < |s| ==> s[i].delta.Some?
  {
    forall i | 0 <= i < |s|
      ensures s[i].delta.Some?
    {
      assert s[i] in s;
      assert s[i].name in ResultNames(s);
    }
  }

  /** The rows pushed so far: one per name already visited. */
  predicate RowsSoFar(adpA: map<string, real>, adpB: map<string, real>, pending: set<string>, result: seq<PlayerResult>) {
    && pending <= adpA.Keys + adpB.Keys
    && ResultNames(result) == (adpA.Keys + adpB.Keys) - pending
    && |result| == |(adpA.Keys + adpB.Keys) - pending|
    && RowsFor(adpA, adpB, result)
  }

  lemma RowsSoFarStep(adpA: map<string, real>, adpB: map<string, real>, pending: set<string>,
                      result: seq<PlayerResult>, name: string)
    requires RowsSoFar(adpA, adpB, pending, result) && name in pending
    ensures RowsSoFar(adpA, adpB, pending - {name}, result + [ResultFor(adpA, adpB, name)])
  {
    var allNames := adpA.Keys + adpB.Keys;
    var r := ResultFor(adpA, adpB, name);
    assert ResultNames(result + [r]) == ResultNames(result) + {name};
    assert allNames - (pending - {name}) == (allNames - pending) + {name};
  }

  /**
   * The loop of `compareADPs` that pushes one row per name of either map;
   * the rows come in the order the names are visited.
   */
  method BuildRows(adpA: map<string, real>, adpB: map<string, real>) returns (result: seq<PlayerResult>)
    ensures |result| == |adpA.Keys + adpB.Keys|
    ensures ResultNames(result) == adpA.Keys + adpB.Keys
    ensures RowsFor(adpA, adpB, result)
  {
    var allNames := adpA.Keys + adpB.Keys;
    result := [];
    var pending := allNames;
    assert allNames - pending == {};
    while pending != {}
      invariant RowsSoFar(adpA, adpB, pending, result)
      decreases |pending|
    {
      var name :| name in pending;
      RowsSoFarStep(adpA, adpB, pending, result, name);
      result := result + [ResultFor(adpA, adpB, name)];
      pending := pending - {name};
    }
    assert allNames - {} == allNames;
  }

  /**
   * `compareADPs(adpA, adpB)`: one row per name of either map, built by
   * `ResultFor`, then sorted by the callback. With the same names on both
   * sides every row has a delta and the rows come largest |delta| first.
   */
  method CompareADPs(adpA: map<string, real>, adpB: map<string, real>) returns (results: seq<PlayerResult>)
    ensures |results| == |adpA.Keys + adpB.Keys|
    ensures ResultNames(results) == adpA.Keys + adpB.Keys
    ensures forall i, j :: 0 <= i < j < |results| ==> results[i].name != results[j].name
    ensures RowsFor(adpA, adpB, results)
    ensures NeighboursInOrder(results)
    ensures adpA.Keys == adpB.Keys ==> ByMagnitudeDescending(results)
  {
    var result := BuildRows(adpA, adpB);
    var sorted := new PlayerResult[|result|](i requires 0 <= i < |result| => result[i]);
    assert sorted[..] == result;
    SortResults(sorted);
    results := sorted[..];
    PermutedRows(result, results);
    OneRowPerName(results);
    if adpA.Keys == adpB.Keys {
      SameNamesAllDeltas(adpA, adpB, results);
      NeighboursGiveOrder(results);
    }
  }
}
