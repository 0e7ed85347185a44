/**
 Conservative merging of daily budgets. Contributions carry stable ids: a shared id counts once,
 a reused id with another payload is refused, and runtime without an id is kept from both sides.

 Contribution ids are ordered by an injective numbering; runtimes are exact reals.
 */
module Merge {
  import opened Vocabulary

  datatype Contribution = Contribution(
    id: int,
    source: string,
    interval: Option<(Time, Time)>,
    runtime: real,
    estimated: bool,
    date: Option<int>)
  {
    predicate Valid() {
      runtime >= 0.0 && (interval.Some? ==> interval.value.0 <= interval.value.1)
    }
  }

  datatype DayBudget = DayBudget(
    date: int,
    runtime: real,
    unattributed: real,
    contributions: seq<Contribution>)
  {
    /** What the constructor of a daily record accepts. */
    predicate Valid() {
      && 0.0 <= unattributed <= runtime
      && (forall c :: c in contributions ==> c.Valid() && (c.date.Some? ==> c.date.value == date))
      && UniqueIds(contributions)
      && Known(contributions) <= runtime
    }
  }

  predicate UniqueIds(s: seq<Contribution>) {
    forall i, j :: 0 <= i < j < |s| ==> s[i].id != s[j].id
  }

  function Known(s: seq<Contribution>): real {
    if s == [] then 0.0 else s[0].runtime + Known(s[1..])
  }

  // ----- deduplication ----------------------------------------------------------------------------

  function Elements(s: seq<Contribution>): set<Contribution> {
    set c | c in s
  }

  /** No id is used for two payloads. */
  predicate Consistent(all: set<Contribution>) {
    forall a, b :: a in all && b in all && a.id == b.id ==> a == b
  }

  predicate IsFirst(c: Contribution, all: set<Contribution>) {
    c in all && forall d :: d in all ==> c.id <= d.id
  }

  lemma {:induction false} FirstExists(all: set<Contribution>)
    requires all != {}
    ensures exists c :: IsFirst(c, all)
  {
    var c :| c in all;
    if all != {c} {
      var rest := all - {c};
      assert rest != {} by {
        assert all == rest + {c};
      }
      FirstExists(rest);
      var d :| IsFirst(d, rest);
      assert IsFirst(if c.id <= d.id then c else d, all);
    } else {
      assert IsFirst(c, all);
    }
  }

  /** The contributions in the order of their ids. */
  function Listed(all: set<Contribution>): seq<Contribution>
    requires Consistent(all)
  {
    if all == {} then []
    else
      FirstExists(all);
      var c :| IsFirst(c, all);
      [c] + Listed(all - {c})
  }

  ghost predicate Ascending(s: seq<Contribution>) {
    forall i, j :: 0 <= i < j < |s| ==> s[i].id < s[j].id
  }

  lemma ListedStep(all: set<Contribution>)
    requires Consistent(all) && all != {}
    ensures var s := Listed(all); s != [] && IsFirst(s[0], all) && s[1..] == Listed(all - {s[0]})
  {
  }

  lemma {:induction false} ListedElements(all: set<Contribution>)
    requires Consistent(all)
    ensures Elements(Listed(all)) == all
  {
    if all != {} {
      var s := Listed(all);
      ListedStep(all);
      ListedElements(all - {s[0]});
      assert s == [s[0]] + s[1..];
      assert Elements(s) == {s[0]} + Elements(s[1..]);
    }
  }

  lemma {:induction false} ListedAscends(all: set<Contribution>)
    requires Consistent(all)
    ensures Ascending(Listed(all))
  {
    if all != {} {
      var s := Listed(all);
      var rest := all - {s[0]};
      ListedStep(all);
      ListedAscends(rest);
      ListedElements(rest);
      forall i | 1 <= i < |s|
        ensures s[0].id < s[i].id
      {
        assert s[i] == s[1..][i - 1] && s[i] in Elements(s[1..]);
      }
    }
  }

  /** The listing holds exactly the contributions, in ascending order of their ids. */
  lemma ListedHolds(all: set<Contribution>)
    requires Consistent(all)
    ensures Elements(Listed(all)) == all
    ensures Ascending(Listed(all))
  {
    ListedElements(all);
    ListedAscends(all);
  }

  /** Contributions with repetitions dropped, or nothing if an id was reused. */
  function Deduplicated(s: seq<Contribution>): Option<seq<Contribution>> {
    if Consistent(Elements(s)) then Some(Listed(Elements(s))) else None
  }

  /** The dictionary the source fills, then lists in key order. */
  method Deduplicate(s: seq<Contribution>) returns (r: Option<seq<Contribution>>)
    ensures r == Deduplicated(s)
  {
    var byId: map<int, Contribution> := map[];
    for i := 0 to |s|
      invariant forall c :: c in s[..i] ==> c.id in byId && byId[c.id] == c
      invariant forall k :: k in byId ==> byId[k].id == k && byId[k] in s[..i]
    {
      var c := s[i];
      assert s[..i + 1] == s[..i] + [c];
      if c.id in byId && byId[c.id] != c {
        assert byId[c.id] in Elements(s) && c in Elements(s);
        return None;
      }
      byId := byId[c.id := c];
    }
    assert s[..|s|] == s;
    var all := set k | k in byId :: byId[k];
    assert all == Elements(s) by {
      assert forall c :: c in s ==> c.id in byId && byId[c.id] == c;
    }
    r := Some(Listed(all));
  }

  // ----- sums ---------------------------------------------------------------------------------------

  lemma {:induction false} KnownSplit(a: seq<Contribution>, b: seq<Contribution>)
    ensures Known(a + b) == Known(a) + Known(b)
  {
    if a == [] {
      assert a + b == b;
    } else {
      assert (a + b)[1..] == a[1..] + b;
      KnownSplit(a[1..], b);
    }
  }

  ghost predicate AllValid(s: seq<Contribution>) {
    forall c :: c in s ==> c.Valid()
  }

  lemma {:induction false} KnownNonNegative(s: seq<Contribution>)
    requires AllValid(s)
    ensures Known(s) >= 0.0
  {
    if s != [] {
      assert s[0] in s;
      KnownNonNegative(s[1..]);
    }
  }

  /** More contributions never weigh less, in whatever order they are listed. */
  lemma {:induction false} KnownMonotone(s: seq<Contribution>, t: seq<Contribution>)
    requires UniqueIds(s) && AllValid(t)
    requires forall c :: c in s ==> c in t
    ensures Known(s) <= Known(t)
    decreases |s|
  {
    if s == [] {
      KnownNonNegative(t);
    } else {
      assert s[0] in s;
      var i :| 0 <= i < |t| && t[i] == s[0];
      var rest := t[..i] + t[i + 1..];
      forall c | c in s[1..]
        ensures c in rest
      {
        var k :| 1 <= k < |s| && s[k] == c;
        assert c.id != s[0].id;
        assert s[k] in s;
        var j :| 0 <= j < |t| && t[j] == c;
        if j < i {
          assert t[..i][j] == c;
        } else {
          assert t[i + 1..][j - i - 1] == c;
        }
      }
      KnownMonotone(s[1..], rest);
      assert t == t[..i] + ([t[i]] + t[i + 1..]);
      KnownSplit(t[..i], [t[i]] + t[i + 1..]);
      KnownSplit(t[..i], t[i + 1..]);
    }
  }

  lemma KnownOfElements(s: seq<Contribution>, t: seq<Contribution>)
    requires UniqueIds(s) && UniqueIds(t) && AllValid(s) && AllValid(t)
    requires Elements(s) == Elements(t)
    ensures Known(s) == Known(t)
  {
    assert forall c :: c in s ==> c in Elements(t);
    assert forall c :: c in t ==> c in Elements(s);
    KnownMonotone(s, t);
    KnownMonotone(t, s);
  }

  // ----- the merge --------------------------------------------------------------------------------------

  function Larger(a: real, b: real): real {
    if a >= b then a else b
  }

  /** Runtime that no contribution id accounts for. */
  function Unresolved(b: DayBudget): real {
    Larger(b.unattributed, b.runtime - Known(b.contributions))
  }

  function MergeDays(left: DayBudget, right: DayBudget): Option<DayBudget> {
    if left.date != right.date then None
    else
      match Deduplicated(left.contributions + right.contributions)
      case None => None
      case Some(contributions) =>
        var unresolved := Unresolved(left) + Unresolved(right);
        Some(DayBudget(left.date, Known(contributions) + unresolved, unresolved, contributions))
  }

  lemma ElementsOfBoth(a: seq<Contribution>, b: seq<Contribution>)
    ensures Elements(a + b) == Elements(a) + Elements(b)
  {
  }

  /** What a merge of valid budgets holds. */
  lemma MergeHolds(left: DayBudget, right: DayBudget)
    requires left.Valid() && right.Valid()
    requires MergeDays(left, right).Some?
    ensures var m := MergeDays(left, right).value;
            && m.date == left.date == right.date
            && Elements(m.contributions) == Elements(left.contributions) + Elements(right.contributions)
            && Ascending(m.contributions) && UniqueIds(m.contributions) && AllValid(m.contributions)
            && Unresolved(m) == Unresolved(left) + Unresolved(right) >= 0.0
            && m.runtime == Known(m.contributions) + Unresolved(m)
  {
    ElementsOfBoth(left.contributions, right.contributions);
    ListedHolds(Elements(left.contributions + right.contributions));
    var m := MergeDays(left, right).value;
    forall c | c in m.contributions
      ensures c.Valid()
    {
      assert c in Elements(m.contributions);
    }
  }

  /** The merged record is valid. */
  lemma MergeIsValid(left: DayBudget, right: DayBudget)
    requires left.Valid() && right.Valid()
    requires MergeDays(left, right).Some?
    ensures MergeDays(left, right).value.Valid()
  {
    MergeHolds(left, right);
    var m := MergeDays(left, right).value;
    KnownNonNegative(m.contributions);
    forall c | c in m.contributions
      ensures c.date.Some? ==> c.date.value == m.date
    {
      assert c in Elements(m.contributions);
    }
  }

  /** Merging is refused exactly for different dates or a reused id. */
  lemma MergeRefused(left: DayBudget, right: DayBudget)
    ensures MergeDays(left, right).None? <==>
            left.date != right.date || !Consistent(Elements(left.contributions) + Elements(right.contributions))
  {
    ElementsOfBoth(left.contributions, right.contributions);
  }

  /** The merged budget is never less than either side, and a shared contribution counts once. */
  lemma MergeIsConservative(left: DayBudget, right: DayBudget)
    requires left.Valid() && right.Valid()
    requires MergeDays(left, right).Some?
    ensures var m := MergeDays(left, right).value;
            && m.runtime >= left.runtime && m.runtime >= right.runtime
            && m.unattributed >= left.unattributed + right.unattributed
            && m.runtime <= Known(left.contributions) + Known(right.contributions) + Unresolved(left) + Unresolved(right)
    ensures Elements(left.contributions) == Elements(right.contributions) ==>
              MergeDays(left, right).value.runtime == Known(left.contributions) + Unresolved(left) + Unresolved(right)
  {
    MergeHolds(left, right);
    var m := MergeDays(left, right).value;
    Contains(m.contributions, left.contributions);
    Contains(m.contributions, right.contributions);
    KnownMonotone(left.contributions, m.contributions);
    KnownMonotone(right.contributions, m.contributions);
    var both := left.contributions + right.contributions;
    ElementsOfBoth(left.contributions, right.contributions);
    Contains(both, m.contributions);
    KnownMonotone(m.contributions, both);
    KnownSplit(left.contributions, right.contributions);
    if Elements(left.contributions) == Elements(right.contributions) {
      KnownOfElements(m.contributions, left.contributions);
    }
  }

  lemma Contains(t: seq<Contribution>, s: seq<Contribution>)
    requires Elements(s) <= Elements(t)
    ensures forall c :: c in s ==> c in t
  {
    forall c | c in s
      ensures c in t
    {
      assert c in Elements(s);
    }
  }

  lemma MergeCommutes(left: DayBudget, right: DayBudget)
    ensures MergeDays(left, right) == MergeDays(right, left)
  {
    ElementsOfBoth(left.contributions, right.contributions);
    ElementsOfBoth(right.contributions, left.contributions);
    assert Elements(left.contributions) + Elements(right.contributions)
        == Elements(right.contributions) + Elements(left.contributions);
  }

  function MergeWith(left: Option<DayBudget>, right: Option<DayBudget>): Option<DayBudget> {
    if left.None? || right.None? then None else MergeDays(left.value, right.value)
  }

  /** The order of merging does not matter, refusal included. */
  lemma MergeAssociates(a: DayBudget, b: DayBudget, c: DayBudget)
    requires a.Valid() && b.Valid() && c.Valid()
    ensures MergeWith(MergeDays(a, b), Some(c)) == MergeWith(Some(a), MergeDays(b, c))
  {
    var l := MergeWith(MergeDays(a, b), Some(c));
    var r := MergeWith(Some(a), MergeDays(b, c));
    assert l.Some? ==> l == Merged3(a, b, c) && Merged3Ok(a, b, c) by {
      if l.Some? {
        MergeHolds(a, b);
        LeftFirst(a, b, c, MergeDays(a, b).value);
      }
    }
    assert r.Some? ==> r == Merged3(a, b, c) && Merged3Ok(a, b, c) by {
      if r.Some? {
        MergeHolds(b, c);
        RightFirst(a, b, c, MergeDays(b, c).value);
      }
    }
    if Merged3Ok(a, b, c) {
      BothDefined(a, b, c);
    }
  }

  ghost predicate Merged3Ok(a: DayBudget, b: DayBudget, c: DayBudget) {
    && a.date == b.date == c.date
    && Consistent(Elements(a.contributions) + Elements(b.contributions) + Elements(c.contributions))
  }

  /** The merge of three, all at once. */
  ghost function Merged3(a: DayBudget, b: DayBudget, c: DayBudget): Option<DayBudget> {
    if !Merged3Ok(a, b, c) then None
    else
      var contributions := Listed(Elements(a.contributions) + Elements(b.contributions) + Elements(c.contributions));
      var unresolved := Unresolved(a) + Unresolved(b) + Unresolved(c);
      Some(DayBudget(a.date, Known(contributions) + unresolved, unresolved, contributions))
  }

  /** A merge is determined by the union of contributions and the sum of the unresolved parts. */
  lemma MergeIs(left: DayBudget, right: DayBudget, all: set<Contribution>, unresolved: real)
    requires MergeDays(left, right).Some?
    requires all == Elements(left.contributions) + Elements(right.contributions)
    requires unresolved == Unresolved(left) + Unresolved(right)
    ensures Consistent(all)
    ensures MergeDays(left, right).value
         == DayBudget(left.date, Known(Listed(all)) + unresolved, unresolved, Listed(all))
  {
    ElementsOfBoth(left.contributions, right.contributions);
  }

  /** The budget `m` stands for the merge of two. */
  ghost predicate Stands(m: DayBudget, a: DayBudget, b: DayBudget) {
    && m.date == a.date == b.date
    && Elements(m.contributions) == Elements(a.contributions) + Elements(b.contributions)
    && Unresolved(m) == Unresolved(a) + Unresolved(b)
  }

  lemma LeftFirst(a: DayBudget, b: DayBudget, c: DayBudget, m: DayBudget)
    requires Stands(m, a, b) && MergeDays(m, c).Some?
    ensures MergeDays(m, c) == Merged3(a, b, c) && Merged3Ok(a, b, c)
  {
    MergeIs(m, c, Elements(a.contributions) + Elements(b.contributions) + Elements(c.contributions),
            Unresolved(a) + Unresolved(b) + Unresolved(c));
  }

  lemma RightFirst(a: DayBudget, b: DayBudget, c: DayBudget, m: DayBudget)
    requires Stands(m, b, c) && MergeDays(a, m).Some?
    ensures MergeDays(a, m) == Merged3(a, b, c) && Merged3Ok(a, b, c)
  {
    assert Elements(a.contributions) + Elements(m.contributions)
        == Elements(a.contributions) + Elements(b.contributions) + Elements(c.contributions);
    MergeIs(a, m, Elements(a.contributions) + Elements(b.contributions) + Elements(c.contributions),
            Unresolved(a) + Unresolved(b) + Unresolved(c));
  }

  lemma BothDefined(a: DayBudget, b: DayBudget, c: DayBudget)
    requires a.Valid() && b.Valid() && c.Valid() && Merged3Ok(a, b, c)
    ensures MergeWith(MergeDays(a, b), Some(c)).Some? && MergeWith(Some(a), MergeDays(b, c)).Some?
  {
    MergeRefused(a, b);
    MergeRefused(b, c);
    MergeHolds(a, b);
    MergeHolds(b, c);
    MergeRefused(MergeDays(a, b).value, c);
    MergeRefused(a, MergeDays(b, c).value);
    assert Elements(a.contributions) + Elements(MergeDays(b, c).value.contributions)
        == Elements(a.contributions) + Elements(b.contributions) + Elements(c.contributions);
  }

  // ----- the controller's own counter -----------------------------------------------------------------------

  /** The controller's counter for a day replaces the total; known contributions of that day stay. */
  function ControllerDay(current: Option<DayBudget>, date: int, runtime: real): DayBudget {
    if current.None? || current.value.date != date then DayBudget(date, runtime, runtime, [])
    else
      var known := Known(current.value.contributions);
      DayBudget(date, runtime, Larger(0.0, runtime - known), current.value.contributions)
  }

  /** The record accepts the counter exactly when it is no less than the day's known contributions. */
  lemma ControllerDayIsValid(current: Option<DayBudget>, date: int, runtime: real)
    requires current.Some? ==> current.value.Valid()
    ensures ControllerDay(current, date, runtime).Valid() <==>
            0.0 <= runtime && (current.Some? && current.value.date == date ==> Known(current.value.contributions) <= runtime)
    ensures ControllerDay(current, date, runtime).Valid() ==>
              var d := ControllerDay(current, date, runtime);
              d.runtime == runtime == Known(d.contributions) + d.unattributed
  {
    if current.Some? && current.value.date == date {
      KnownNonNegative(current.value.contributions);
    }
  }

  // ----- histories -----------------------------------------------------------------------------------------

  /** A zone's history; `operation` is its operational state, which never crosses a merge. */
  datatype History<R> = History(
    id: string,
    lastEnd: Option<Time>,
    lastAutoStart: Option<Time>,
    daily: Option<DayBudget>,
    operation: R)

  function Latest(a: Option<Time>, b: Option<Time>): Option<Time> {
    if a.None? then b else if b.None? then a else Some(Max(a.value, b.value))
  }

  /** The later day wins; the same day is merged, or refused. */
  function MergedDaily(a: Option<DayBudget>, b: Option<DayBudget>): Outcome<Option<DayBudget>> {
    if a.None? then Ok(b)
    else if b.None? then Ok(a)
    else if a.value.date == b.value.date then
      var m := MergeDays(a.value, b.value);
      if m.None? then Raise(ReusedContribution) else Ok(m)
    else if a.value.date > b.value.date then Ok(a)
    else Ok(b)
  }

  function MergeHistories<R(==)>(continuing: History<R>, retained: History<R>): Outcome<History<R>> {
    if continuing.id == retained.id then
      if continuing != retained then Raise(ConflictingHistory) else Ok(continuing)
    else
      var daily :- MergedDaily(continuing.daily, retained.daily);
      Ok(continuing.(lastEnd := Latest(continuing.lastEnd, retained.lastEnd),
         lastAutoStart := Latest(continuing.lastAutoStart, retained.lastAutoStart),
         daily := daily))
  }

  predicate NoEarlier(a: Option<Time>, b: Option<Time>) {
    b.Some? ==> a.Some? && a.value >= b.value
  }

  /** At least the budget `b` records for its day, or a later day. */
  predicate NoLess(a: Option<DayBudget>, b: Option<DayBudget>) {
    b.Some? ==> a.Some? && (a.value.date > b.value.date || (a.value.date == b.value.date && a.value.runtime >= b.value.runtime))
  }

  /**
   A history merge keeps the continuing identity and operational state, moves no interval
   anchor back, and lowers no day's budget of either side.
   */
  lemma HistoryMergeIsConservative<R>(continuing: History<R>, retained: History<R>)
    requires continuing.daily.Some? ==> continuing.daily.value.Valid()
    requires retained.daily.Some? ==> retained.daily.value.Valid()
    requires MergeHistories(continuing, retained).Ok?
    ensures var m := MergeHistories(continuing, retained).value;
            && m.id == continuing.id && m.operation == continuing.operation
            && NoEarlier(m.lastEnd, continuing.lastEnd) && NoEarlier(m.lastEnd, retained.lastEnd)
            && NoEarlier(m.lastAutoStart, continuing.lastAutoStart) && NoEarlier(m.lastAutoStart, retained.lastAutoStart)
            && NoLess(m.daily, continuing.daily) && NoLess(m.daily, retained.daily)
            && (m.daily.Some? ==> m.daily.value.Valid())
  {
    if continuing.id != retained.id && continuing.daily.Some? && retained.daily.Some?
       && continuing.daily.value.date == retained.daily.value.date
    {
      MergeIsValid(continuing.daily.value, retained.daily.value);
      MergeIsConservative(continuing.daily.value, retained.daily.value);
    }
  }

  /** What crosses a history merge does not depend on which side continues. */
  lemma HistoryMergeCommutes<R>(a: History<R>, b: History<R>)
    requires a.id != b.id
    ensures MergeHistories(a, b).Ok? <==> MergeHistories(b, a).Ok?
    ensures MergeHistories(a, b).Ok? ==>
              var m := MergeHistories(a, b).value;
              var n := MergeHistories(b, a).value;
              m.daily == n.daily && m.lastEnd == n.lastEnd && m.lastAutoStart == n.lastAutoStart
  {
    if a.daily.Some? && b.daily.Some? {
      MergeCommutes(a.daily.value, b.daily.value);
    }
  }
}
