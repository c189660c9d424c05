/** The widths of table columns (row_render.go). */
module Columns {

  /** maxWidth 0 means no cap. */
  datatype Column = Column(minWidth: int, maxWidth: int, weight: int)

  function Sum(s: seq<int>): int {
    if s == [] then 0 else Sum(s[..|s| - 1]) + s[|s| - 1]
  }

  function Mins(cols: seq<Column>): (mins: seq<int>)
    ensures |mins| == |cols|
  {
    seq(|cols|, i requires 0 <= i < |cols| => cols[i].minWidth)
  }

  predicate Weighted(cols: seq<Column>, i: int)
    requires 0 <= i < |cols|
  {
    cols[i].weight > 0
  }

  predicate Capped(c: Column) {
    c.maxWidth > 0
  }

  /** The minimum does not exceed the cap. */
  predicate Sane(c: Column) {
    Capped(c) ==> c.minWidth <= c.maxWidth
  }

  lemma {:induction false} SumUpdate(s: seq<int>, i: nat, v: int)
    requires i < |s|
    ensures Sum(s[i := v]) == Sum(s) - s[i] + v
    decreases |s|
  {
    var t := s[i := v];
    if i < |s| - 1 {
      SumUpdate(s[..|s| - 1], i, v);
      assert t[..|s| - 1] == s[..|s| - 1][i := v];
    } else {
      assert t[..i] == s[..i];
    }
  }

  // ----- one pass -----

  /** The weight of the columns below i that still take part. */
  function ActiveWeight(cols: seq<Column>, frozen: seq<bool>, i: nat): int
    requires i <= |cols| == |frozen|
  {
    if i == 0 then 0 else ActiveWeight(cols, frozen, i - 1) + if frozen[i - 1] then 0 else cols[i - 1].weight
  }

  predicate Active(cols: seq<Column>, frozen: seq<bool>, i: int)
    requires 0 <= i < |cols| == |frozen|
  {
    !frozen[i] && cols[i].weight != 0
  }

  function Count(flags: seq<bool>): nat {
    if flags == [] then 0 else Count(flags[..|flags| - 1]) + if flags[|flags| - 1] then 1 else 0
  }

  lemma {:induction false} CountUpdate(flags: seq<bool>, i: nat)
    requires i < |flags| && !flags[i]
    ensures Count(flags[i := true]) == Count(flags) + 1
    decreases |flags|
  {
    if i < |flags| - 1 {
      CountUpdate(flags[..|flags| - 1], i);
      assert flags[i := true][..|flags| - 1] == flags[..|flags| - 1][i := true];
    } else {
      assert flags[i := true][..i] == flags[..i];
    }
  }

  lemma {:induction false} CountFull(flags: seq<bool>)
    ensures Count(flags) <= |flags|
    ensures Count(flags) == |flags| ==> forall i :: 0 <= i < |flags| ==> flags[i]
    decreases |flags|
  {
    if flags != [] { CountFull(flags[..|flags| - 1]); }
  }

  lemma {:induction false} ActiveWeightPositive(cols: seq<Column>, frozen: seq<bool>, n: nat)
    requires n <= |cols| == |frozen| && forall i :: 0 <= i < |cols| ==> cols[i].weight >= 0
    ensures ActiveWeight(cols, frozen, n) >= 0
    ensures ActiveWeight(cols, frozen, n) == 0 ==> forall i :: 0 <= i < n ==> !Active(cols, frozen, i)
  {
    if n > 0 { ActiveWeightPositive(cols, frozen, n - 1); }
  }

  /** A share is rounded down, by less than one. */
  function Share(remaining: int, weight: int, total: int): int
    requires total > 0
  {
    remaining * weight / total
  }

  lemma ShareBounds(remaining: int, weight: int, total: int)
    requires total > 0 && remaining >= 0 && weight >= 0
    ensures 0 <= Share(remaining, weight, total)
    ensures total * Share(remaining, weight, total) <= remaining * weight
            <= total * Share(remaining, weight, total) + total - 1
  {
    var p := remaining * weight;
    assert p >= 0;
    assert p == total * (p / total) + p % total;
  }

  /** What the columns below i would get if no cap cut it down. */
  function Shares(cols: seq<Column>, frozen: seq<bool>, i: nat, remaining: int, total: int): int
    requires i <= |cols| == |frozen| && total > 0
  {
    if i == 0 then 0
    else Shares(cols, frozen, i - 1, remaining, total)
         + if frozen[i - 1] then 0 else Share(remaining, cols[i - 1].weight, total)
  }

  lemma ShareOneMore(remaining: int, total: int, weight: int, shares: int, k: int, w: int)
    requires total > 0 && remaining >= 0 && w >= 0
    requires total * shares <= remaining * weight <= total * shares + (total - 1) * k
    ensures var shares' := shares + Share(remaining, w, total);
            total * shares' <= remaining * (weight + w) <= total * shares' + (total - 1) * (k + 1)
  {
    var share := Share(remaining, w, total);
    ShareBounds(remaining, w, total);
    assert total * (shares + share) == total * shares + total * share;
    assert remaining * (weight + w) == remaining * weight + remaining * w;
    assert (total - 1) * (k + 1) == (total - 1) * k + total - 1;
  }

  lemma {:induction false} SharesBounds(cols: seq<Column>, frozen: seq<bool>, i: nat, remaining: int, total: int)
    requires i <= |cols| == |frozen| && total > 0 && remaining >= 0
    requires forall j :: 0 <= j < |cols| ==> cols[j].weight >= 0
    ensures var shares, weight := Shares(cols, frozen, i, remaining, total), ActiveWeight(cols, frozen, i);
            total * shares <= remaining * weight <= total * shares + (total - 1) * i
  {
    if i > 0 {
      SharesBounds(cols, frozen, i - 1, remaining, total);
      var shares, weight := Shares(cols, frozen, i - 1, remaining, total), ActiveWeight(cols, frozen, i - 1);
      ShareOneMore(remaining, total, weight, shares, i - 1, if frozen[i - 1] then 0 else cols[i - 1].weight);
    }
  }

  lemma SignOf(total: int, x: int)
    requires total > 0
    ensures total * x >= 0 <==> x >= 0
    ensures total * x > 0 <==> x > 0
  {
  }

  /** Rounding down never gives away more than there is, and keeps back less than one cell per column. */
  lemma SharesFit(cols: seq<Column>, frozen: seq<bool>, remaining: int, total: int)
    requires |cols| == |frozen| && remaining >= 0 && total == ActiveWeight(cols, frozen, |cols|) > 0
    requires forall j :: 0 <= j < |cols| ==> cols[j].weight >= 0
    ensures 0 <= remaining - Shares(cols, frozen, |cols|, remaining, total) < |cols|
  {
    var n, shares := |cols|, Shares(cols, frozen, |cols|, remaining, total);
    SharesBounds(cols, frozen, n, remaining, total);
    var rest := remaining - shares;
    assert total * rest == total * remaining - total * shares;
    assert total * (n - rest) == total * n - total * rest;
    assert (total - 1) * n == total * n - n;
    SignOf(total, rest);
    SignOf(total, n - rest);
  }

  /** What a pass does to one column. */
  function Served(c: Column, frozen: bool, width: int, remaining: int, total: int): (int, bool)
    requires total > 0
  {
    if frozen || c.weight == 0 then (width, frozen)
    else
      var grown := width + Share(remaining, c.weight, total);
      if Capped(c) && grown > c.maxWidth then (c.maxWidth, true) else (grown, false)
  }

  /** given is by how much the column grows; it never exceeds the share, which only a cap cuts down. */
  method Serve(cols: seq<Column>, widths: array<int>, frozen: array<bool>, i: nat, remaining: int, totalWeight: int)
    returns (given: int, froze: bool)
    requires i < |cols| == widths.Length == frozen.Length
    requires remaining > 0 && totalWeight > 0 && Active(cols, frozen[..], i)
    modifies widths, frozen
    ensures var (w, f) := Served(cols[i], old(frozen[i]), old(widths[i]), remaining, totalWeight);
            && widths[..] == old(widths[..])[i := w] && frozen[..] == old(frozen[..])[i := f]
            && froze == f
    ensures Sum(widths[..]) == Sum(old(widths[..])) + given
    ensures given <= Share(remaining, cols[i].weight, totalWeight)
    ensures if froze then Count(frozen[..]) == Count(old(frozen[..])) + 1
            else frozen[..] == old(frozen[..]) && given == Share(remaining, cols[i].weight, totalWeight)
  {
    var c := cols[i];
    var share := remaining * c.weight / totalWeight;
    var newWidth := widths[i] + share;
    if c.maxWidth > 0 && newWidth > c.maxWidth {
      SumUpdate(widths[..], i, c.maxWidth);
      CountUpdate(frozen[..], i);
      given := c.maxWidth - widths[i];
      widths[i] := c.maxWidth;
      frozen[i] := true;
      froze := true;
      return;
    }
    SumUpdate(widths[..], i, newWidth);
    widths[i] := newWidth;
    return share, false;
  }

  /** The columns below n have been served. */
  ghost predicate ServedUpTo(cols: seq<Column>, n: nat, w0: seq<int>, f0: seq<bool>, w: seq<int>, f: seq<bool>,
      remaining: int, total: int)
    requires n <= |cols| == |w0| == |f0| == |w| == |f| && total > 0
  {
    && (forall j :: 0 <= j < n ==> (w[j], f[j]) == Served(cols[j], f0[j], w0[j], remaining, total))
    && w[n..] == w0[n..] && f[n..] == f0[n..]
  }

  lemma ServedOneMore(cols: seq<Column>, n: nat, w0: seq<int>, f0: seq<bool>, w: seq<int>, f: seq<bool>,
      remaining: int, total: int)
    requires n < |cols| == |w0| == |f0| == |w| == |f| && total > 0
    requires ServedUpTo(cols, n, w0, f0, w, f, remaining, total)
    ensures w[n] == w0[n] && f[n] == f0[n]
    ensures var (x, y) := Served(cols[n], f0[n], w0[n], remaining, total);
            ServedUpTo(cols, n + 1, w0, f0, w[n := x], f[n := y], remaining, total)
  {
    assert w[n] == w[n..][0] && f[n] == f[n..][0];
    assert w0[n..][0] == w0[n] && f0[n..][0] == f0[n];
    var (x, y) := Served(cols[n], f0[n], w0[n], remaining, total);
    assert w[n := x][n + 1..] == w[n..][1..] && f[n := y][n + 1..] == f[n..][1..];
    assert w0[n + 1..] == w0[n..][1..] && f0[n + 1..] == f0[n..][1..];
  }

  lemma SharesStep(cols: seq<Column>, frozen: seq<bool>, i: nat, remaining: int, total: int)
    requires i < |cols| == |frozen| && total > 0
    ensures Shares(cols, frozen, i + 1, remaining, total)
         == Shares(cols, frozen, i, remaining, total)
            + if Active(cols, frozen, i) then Share(remaining, cols[i].weight, total) else 0
  {
    if cols[i].weight == 0 { assert remaining * cols[i].weight == 0; }
  }

  lemma SetToItself<T>(s: seq<T>, i: nat)
    requires i < |s|
    ensures s[i := s[i]] == s
  {
  }

  method Pass(cols: seq<Column>, widths: array<int>, frozen: array<bool>, remaining: int, totalWeight: int)
    returns (distributed: int, anyFroze: bool)
    requires widths.Length == frozen.Length == |cols|
    requires forall i :: 0 <= i < |cols| ==> cols[i].weight >= 0
    requires remaining > 0 && totalWeight == ActiveWeight(cols, frozen[..], |cols|) > 0
    modifies widths, frozen
    ensures ServedUpTo(cols, |cols|, old(widths[..]), old(frozen[..]), widths[..], frozen[..], remaining, totalWeight)
    ensures Sum(widths[..]) == Sum(old(widths[..])) + distributed && distributed <= remaining
    ensures if anyFroze then Count(frozen[..]) > Count(old(frozen[..]))
            else remaining - distributed < |cols| && frozen[..] == old(frozen[..])
  {
    ghost var w0, f0 := widths[..], frozen[..];
    distributed, anyFroze := 0, false;
    for i := 0 to |cols|
      invariant ServedUpTo(cols, i, w0, f0, widths[..], frozen[..], remaining, totalWeight)
      invariant Sum(widths[..]) == Sum(w0) + distributed
      invariant distributed <= Shares(cols, f0, i, remaining, totalWeight)
      invariant !anyFroze ==> distributed == Shares(cols, f0, i, remaining, totalWeight)
      invariant if anyFroze then Count(frozen[..]) > Count(f0) else frozen[..] == f0
    {
      SharesStep(cols, f0, i, remaining, totalWeight);
      ServedOneMore(cols, i, w0, f0, widths[..], frozen[..], remaining, totalWeight);
      var c := cols[i];
      if frozen[i] || c.weight == 0 {
        SetToItself(widths[..], i);
        SetToItself(frozen[..], i);
        continue;
      }
      var given, froze := Serve(cols, widths, frozen, i, remaining, totalWeight);
      distributed := distributed + given;
      anyFroze := anyFroze || froze;
    }
    SharesFit(cols, f0, remaining, totalWeight);
  }

  // ----- all passes -----

  /** How a column stands between passes. */
  ghost predicate Stands(c: Column, frozen: bool, width: int) {
    && (Sane(c) ==> c.minWidth <= width && (Capped(c) ==> width <= c.maxWidth))
    && (c.weight == 0 ==> width == c.minWidth)
    && (frozen ==> Capped(c) && width == c.maxWidth)
  }

  lemma ServedStands(c: Column, frozen: bool, width: int, remaining: int, total: int)
    requires total > 0 && remaining >= 0 && c.weight >= 0 && Stands(c, frozen, width)
    ensures var (w, f) := Served(c, frozen, width, remaining, total);
            Stands(c, f, w)
  {
    ShareBounds(remaining, c.weight, total);
  }

  /** i is the last weighted column, or there is none. */
  predicate IsLastWeighted(cols: seq<Column>, last: int) {
    && -1 <= last < |cols|
    && (last >= 0 ==> Weighted(cols, last))
    && (forall j :: last < j < |cols| ==> !Weighted(cols, j))
  }

  /** Every weighted column has reached its cap. */
  ghost predicate AllAtCap(cols: seq<Column>, widths: seq<int>)
    requires |cols| == |widths|
  {
    forall i :: 0 <= i < |cols| && Weighted(cols, i) ==> Capped(cols[i]) && widths[i] == cols[i].maxWidth
  }

  ghost predicate AllStand(cols: seq<Column>, frozen: seq<bool>, widths: seq<int>)
    requires |cols| == |frozen| == |widths|
  {
    forall i :: 0 <= i < |cols| ==> Stands(cols[i], frozen[i], widths[i])
  }

  lemma PassStands(
      cols: seq<Column>, w0: seq<int>, f0: seq<bool>, w: seq<int>, f: seq<bool>, remaining: int, total: int)
    requires |cols| == |w0| == |f0| == |w| == |f| && total > 0 && remaining >= 0
    requires forall i :: 0 <= i < |cols| ==> cols[i].weight >= 0
    requires ServedUpTo(cols, |cols|, w0, f0, w, f, remaining, total) && AllStand(cols, f0, w0)
    ensures AllStand(cols, f, w)
  {
    forall i | 0 <= i < |cols| ensures Stands(cols[i], f[i], w[i]) {
      ServedStands(cols[i], f0[i], w0[i], remaining, total);
    }
  }

  // ----- proportions -----

  function Unfrozen(cols: seq<Column>): seq<bool> {
    seq(|cols|, i => false)
  }

  function TotalOf(cols: seq<Column>): int {
    ActiveWeight(cols, Unfrozen(cols), |cols|)
  }

  /** The minimum and the column's proportional part of the room, or the cap if that is less. */
  function FairShare(c: Column, room: int, total: int): int
    requires total > 0
  {
    var grown := c.minWidth + Share(room, c.weight, total);
    if Capped(c) && grown > c.maxWidth then c.maxWidth else grown
  }

  ghost predicate AtLeastFair(cols: seq<Column>, room: int, widths: seq<int>)
    requires |cols| == |widths| && TotalOf(cols) > 0
  {
    forall i :: 0 <= i < |cols| && Weighted(cols, i) ==> widths[i] >= FairShare(cols[i], room, TotalOf(cols))
  }

  ghost predicate ExactlyFair(cols: seq<Column>, room: int, widths: seq<int>)
    requires |cols| == |widths| && TotalOf(cols) > 0
  {
    forall i :: 0 <= i < |cols| && Weighted(cols, i) && !IsLastWeighted(cols, i) ==>
      widths[i] == FairShare(cols[i], room, TotalOf(cols))
  }

  /** No proportional part is cut down by a cap. */
  ghost predicate NoOverflow(cols: seq<Column>, room: int)
    requires TotalOf(cols) > 0
  {
    forall i :: 0 <= i < |cols| && Weighted(cols, i) ==>
      FairShare(cols[i], room, TotalOf(cols)) == cols[i].minWidth + Share(room, cols[i].weight, TotalOf(cols))
  }

  /** Every column gets its proportional part up to its cap; if no cap interferes only the last can get more. */
  ghost predicate Proportional(cols: seq<Column>, room: int, widths: seq<int>)
    requires |cols| == |widths|
  {
    TotalOf(cols) > 0 ==>
      && AtLeastFair(cols, room, widths)
      && (NoOverflow(cols, room) ==> ExactlyFair(cols, room, widths))
  }

  lemma FirstPass(cols: seq<Column>, w: seq<int>, f: seq<bool>, room: int)
    requires |cols| == |w| == |f| && TotalOf(cols) > 0
    requires forall i :: 0 <= i < |cols| ==> cols[i].weight >= 0
    requires ServedUpTo(cols, |cols|, Mins(cols), Unfrozen(cols), w, f, room, TotalOf(cols))
    ensures AtLeastFair(cols, room, w) && ExactlyFair(cols, room, w)
    ensures f != Unfrozen(cols) ==> !NoOverflow(cols, room)
  {
    forall i | 0 <= i < |cols| && Weighted(cols, i)
      ensures w[i] == FairShare(cols[i], room, TotalOf(cols))
      ensures f[i] ==> FairShare(cols[i], room, TotalOf(cols))
                       < cols[i].minWidth + Share(room, cols[i].weight, TotalOf(cols))
    {
      assert (w[i], f[i]) == Served(cols[i], Unfrozen(cols)[i], Mins(cols)[i], room, TotalOf(cols));
    }
    if f != Unfrozen(cols) {
      var i :| 0 <= i < |cols| && f[i] != Unfrozen(cols)[i];
      assert (w[i], f[i]) == Served(cols[i], Unfrozen(cols)[i], Mins(cols)[i], room, TotalOf(cols));
      assert Weighted(cols, i);
    }
  }

  lemma LaterPass(cols: seq<Column>, w0: seq<int>, f0: seq<bool>, w: seq<int>, f: seq<bool>, remaining: int, total: int,
      room: int)
    requires |cols| == |w0| == |f0| == |w| == |f| && total > 0 && remaining >= 0 && TotalOf(cols) > 0
    requires forall i :: 0 <= i < |cols| ==> cols[i].weight >= 0
    requires ServedUpTo(cols, |cols|, w0, f0, w, f, remaining, total) && AtLeastFair(cols, room, w0)
    ensures AtLeastFair(cols, room, w)
  {
    forall i | 0 <= i < |cols| && Weighted(cols, i) ensures w[i] >= FairShare(cols[i], room, TotalOf(cols)) {
      assert (w[i], f[i]) == Served(cols[i], f0[i], w0[i], remaining, total);
      ShareBounds(remaining, cols[i].weight, total);
    }
  }

  method LastWeighted(cols: seq<Column>) returns (lastWeighted: int)
    ensures IsLastWeighted(cols, lastWeighted)
  {
    lastWeighted := -1;
    for i := 0 to |cols|
      invariant -1 <= lastWeighted < i && (lastWeighted >= 0 ==> Weighted(cols, lastWeighted))
      invariant forall j :: lastWeighted < j < i ==> !Weighted(cols, j)
    {
      if cols[i].weight > 0 {
        lastWeighted := i;
      }
    }
  }

  /** The weight that is still to be served. */
  method TotalWeight(cols: seq<Column>, frozen: array<bool>) returns (totalWeight: int)
    requires frozen.Length == |cols|
    ensures totalWeight == ActiveWeight(cols, frozen[..], |cols|)
  {
    totalWeight := 0;
    for i := 0 to |cols|
      invariant totalWeight == ActiveWeight(cols, frozen[..], i)
    {
      if !frozen[i] {
        totalWeight := totalWeight + cols[i].weight;
      }
    }
  }

  lemma MinsStand(cols: seq<Column>, frozen: seq<bool>)
    requires |frozen| == |cols| && forall i :: 0 <= i < |frozen| ==> !frozen[i]
    ensures AllStand(cols, frozen, Mins(cols))
  {
  }

  lemma NoneActive(cols: seq<Column>, frozen: seq<bool>, widths: seq<int>)
    requires |cols| == |frozen| == |widths| && AllStand(cols, frozen, widths)
    requires forall i :: 0 <= i < |cols| ==> !Active(cols, frozen, i)
    ensures AllAtCap(cols, widths)
  {
    forall i | 0 <= i < |cols| && Weighted(cols, i) ensures Capped(cols[i]) && widths[i] == cols[i].maxWidth {
      assert !Active(cols, frozen, i) && Stands(cols[i], frozen[i], widths[i]);
    }
  }

  /** The passes: each but the last one freezes a column, so that as many as there are columns are enough. */
  method Spread(cols: seq<Column>, widths: array<int>, frozen: array<bool>, room: int) returns (remaining: int)
    requires widths.Length == frozen.Length == |cols|
    requires forall i :: 0 <= i < |cols| ==> cols[i].weight >= 0
    requires room > 0 && widths[..] == Mins(cols) && frozen[..] == Unfrozen(cols)
    modifies widths, frozen
    ensures Sum(widths[..]) + remaining == Sum(Mins(cols)) + room && remaining >= 0
    ensures AllStand(cols, frozen[..], widths[..])
    ensures Proportional(cols, room, widths[..])
    ensures remaining == 0 || remaining < |cols| || AllAtCap(cols, widths[..])
  {
    remaining := room;
    MinsStand(cols, frozen[..]);
    ActiveWeightPositive(cols, frozen[..], |cols|);
    for pass := 0 to |cols|
      invariant Sum(widths[..]) + remaining == Sum(Mins(cols)) + room && remaining >= 0
      invariant AllStand(cols, frozen[..], widths[..])
      invariant Count(frozen[..]) >= pass
      invariant pass == 0 ==> widths[..] == Mins(cols) && frozen[..] == Unfrozen(cols) && remaining == room
      invariant pass > 0 ==> TotalOf(cols) > 0 && AtLeastFair(cols, room, widths[..]) && !NoOverflow(cols, room)
    {
      var totalWeight := TotalWeight(cols, frozen);
      ActiveWeightPositive(cols, frozen[..], |cols|);
      if totalWeight == 0 || remaining <= 0 {
        if totalWeight == 0 { NoneActive(cols, frozen[..], widths[..]); }
        return;
      }
      ghost var w0, f0 := widths[..], frozen[..];
      var distributed, anyFroze := Pass(cols, widths, frozen, remaining, totalWeight);
      if pass == 0 {
        FirstPass(cols, widths[..], frozen[..], room);
      } else {
        LaterPass(cols, w0, f0, widths[..], frozen[..], remaining, totalWeight, room);
      }
      PassStands(cols, w0, f0, widths[..], frozen[..], remaining, totalWeight);
      remaining := remaining - distributed;
      if !anyFroze {
        return;
      }
    }
    CountFull(frozen[..]);
  }

  /** The widths that the table gets, column by column. */
  ghost predicate Fair(cols: seq<Column>, widths: seq<int>)
    requires |cols| == |widths|
  {
    && (forall i :: 0 <= i < |cols| && Sane(cols[i]) ==> widths[i] >= cols[i].minWidth)
    && (forall i :: 0 <= i < |cols| && cols[i].weight == 0 ==> widths[i] == cols[i].minWidth)
  }

  /** Only the last weighted column may exceed its cap, and by many cells only once all others are at theirs. */
  ghost predicate WithinCaps(cols: seq<Column>, widths: seq<int>)
    requires |cols| == |widths|
  {
    forall i :: 0 <= i < |cols| && Capped(cols[i]) && Sane(cols[i]) && widths[i] > cols[i].maxWidth ==>
      && IsLastWeighted(cols, i)
      && (widths[i] < cols[i].maxWidth + |cols| || OthersAtCap(cols, widths, i))
  }

  ghost predicate OthersAtCap(cols: seq<Column>, widths: seq<int>, i: int)
    requires |cols| == |widths|
  {
    forall j :: 0 <= j < |cols| && j != i && Weighted(cols, j) ==> Capped(cols[j]) && widths[j] == cols[j].maxWidth
  }

  predicate NoneWeighted(cols: seq<Column>) {
    forall i :: 0 <= i < |cols| ==> !Weighted(cols, i)
  }

  /**
   * The widths fill what is available exactly, unless not even the minimums fit or no column can grow: then they are
   * the minimums. Each column gets its proportional part up to its cap.
   */
  ghost predicate Allocated(cols: seq<Column>, availWidth: int, widths: seq<int>)
    requires |cols| == |widths|
  {
    && (if availWidth <= Sum(Mins(cols)) || NoneWeighted(cols) then widths == Mins(cols) else Sum(widths) == availWidth)
    && Fair(cols, widths)
    && WithinCaps(cols, widths)
    && (availWidth > Sum(Mins(cols)) ==> Proportional(cols, availWidth - Sum(Mins(cols)), widths))
  }

  function Topped(w: seq<int>, last: int, rest: int): (w': seq<int>)
    requires last < |w|
    ensures |w'| == |w|
  {
    if rest > 0 && last >= 0 then w[last := w[last] + rest] else w
  }

  /** Where the rest goes, and what is known about it. */
  ghost predicate Rest(cols: seq<Column>, frozen: seq<bool>, w: seq<int>, last: int, rest: int) {
    && |cols| == |frozen| == |w| && AllStand(cols, frozen, w) && IsLastWeighted(cols, last)
    && (forall i :: 0 <= i < |cols| ==> cols[i].weight >= 0)
    && (rest == 0 || 0 < rest < |cols| || (rest > 0 && AllAtCap(cols, w)))
  }

  lemma RestWithinCaps(cols: seq<Column>, frozen: seq<bool>, w: seq<int>, last: int, rest: int)
    requires Rest(cols, frozen, w, last, rest)
    ensures WithinCaps(cols, Topped(w, last, rest)) && Fair(cols, Topped(w, last, rest))
  {
    var w' := Topped(w, last, rest);
    forall i | 0 <= i < |cols|
      ensures Stands(cols[i], frozen[i], w[i]) && w'[i] == if i == last && rest > 0 then w[i] + rest else w[i]
    {
    }
    forall i | 0 <= i < |cols| && Capped(cols[i]) && Sane(cols[i]) && w'[i] > cols[i].maxWidth
      ensures IsLastWeighted(cols, i) && (w'[i] < cols[i].maxWidth + |cols| || OthersAtCap(cols, w', i))
    {
      assert i == last;
    }
  }

  lemma RestIsProportional(cols: seq<Column>, w: seq<int>, last: int, rest: int, room: int)
    requires |cols| == |w| && IsLastWeighted(cols, last) && Proportional(cols, room, w)
    ensures Proportional(cols, room, Topped(w, last, rest))
  {
    var w' := Topped(w, last, rest);
    assert forall i :: 0 <= i < |cols| ==> w'[i] >= w[i] && (i != last ==> w'[i] == w[i]);
  }

  /** The rest fills the width up, unless there is no column to put it into. */
  lemma RestFillsUp(cols: seq<Column>, frozen: seq<bool>, w: seq<int>, last: int, rest: int)
    requires Rest(cols, frozen, w, last, rest)
    ensures NoneWeighted(cols) ==> Topped(w, last, rest) == Mins(cols)
    ensures !NoneWeighted(cols) ==> Sum(Topped(w, last, rest)) == Sum(w) + rest
  {
    if NoneWeighted(cols) {
      forall i | 0 <= i < |cols| ensures w[i] == Mins(cols)[i] {
        assert !Weighted(cols, i) && Stands(cols[i], frozen[i], w[i]);
      }
      assert last < 0 && w == Mins(cols);
    } else if rest > 0 {
      SumUpdate(w, last, w[last] + rest);
    }
  }

  /** The rest goes to the last weighted column. */
  lemma RestToTheLast(cols: seq<Column>, frozen: seq<bool>, w: seq<int>, last: int, rest: int, availWidth: int)
    requires Rest(cols, frozen, w, last, rest)
    requires Sum(w) + rest == availWidth > Sum(Mins(cols)) && Proportional(cols, availWidth - Sum(Mins(cols)), w)
    ensures Allocated(cols, availWidth, Topped(w, last, rest))
  {
    RestWithinCaps(cols, frozen, w, last, rest);
    RestIsProportional(cols, w, last, rest, availWidth - Sum(Mins(cols)));
    RestFillsUp(cols, frozen, w, last, rest);
  }

  lemma MinsAreFair(cols: seq<Column>)
    ensures Fair(cols, Mins(cols)) && WithinCaps(cols, Mins(cols))
  {
  }

  method Widen(widths: array<int>, i: nat, extra: int)
    requires i < widths.Length
    modifies widths
    ensures widths[..] == old(widths[..])[i := old(widths[i]) + extra]
  {
    widths[i] := widths[i] + extra;
  }

  method Minimums(cols: seq<Column>) returns (widths: array<int>, sumMin: int)
    ensures fresh(widths) && widths[..] == Mins(cols) && sumMin == Sum(Mins(cols))
  {
    var n := |cols|;
    widths := new int[n];
    sumMin := 0;
    for i := 0 to n
      invariant widths[..i] == Mins(cols)[..i] && sumMin == Sum(widths[..i])
    {
      widths[i] := cols[i].minWidth;
      sumMin := sumMin + cols[i].minWidth;
      assert widths[..i + 1][..i] == widths[..i];
    }
    assert widths[..n] == widths[..] && Mins(cols)[..n] == Mins(cols);
  }

  method ComputeColumnWidths(cols: seq<Column>, availWidth: int) returns (widths: array<int>)
    requires forall i :: 0 <= i < |cols| ==> cols[i].weight >= 0
    ensures widths.Length == |cols|
    ensures Allocated(cols, availWidth, widths[..])
  {
    var sumMin;
    widths, sumMin := Minimums(cols);
    MinsAreFair(cols);
    assert availWidth <= sumMin ==> Allocated(cols, availWidth, Mins(cols));
    var remaining := availWidth - sumMin;
    if remaining <= 0 {
      return;
    }
    var frozen := new bool[|cols|](_ => false);
    assert frozen[..] == Unfrozen(cols);
    var lastWeighted := LastWeighted(cols);
    remaining := Spread(cols, widths, frozen, remaining);
    RestToTheLast(cols, frozen[..], widths[..], lastWeighted, remaining, availWidth);
    ghost var target := Topped(widths[..], lastWeighted, remaining);
    if remaining > 0 && lastWeighted >= 0 {
      Widen(widths, lastWeighted, remaining);
    }
    assert widths[..] == target;
  }
}
