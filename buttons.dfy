/** The set of "No" buttons: the layouts each stage installs, the lookup a
    click performs, and the filter a decoy click applies. */
module Buttons {
  import opened Types

  const MainId: string := "main"
  const NoLabel: string := "No"
  const ReallyLabel: string := "Really?"
  const LastChanceLabel: string := "Last chance..."
  const FullSize: int := 100
  const HalfSize: int := 50

  /** Number of buttons in the decoy scatter, and the index of the real one. */
  const DecoyCount: nat := 5
  const RealDecoyIndex: nat := 2

  /** The single real button with id "main". */
  function MainButton(pos: Position, size: int, text: string): NoButton {
    NoButton(MainId, pos.x, pos.y, size, text, true)
  }

  /** The button the component starts with. */
  function InitialButton(): NoButton {
    NoButton(MainId, 0.0, 0.0, FullSize, NoLabel, true)
  }

  function Digit(i: nat): char
    requires i < 10
  {
    (('0' as int) + i) as char
  }

  /** The template `fake-${i}` for the single-digit indices the scatter uses. */
  function FakeId(i: nat): string
    requires i < 10
  {
    "fake-" + [Digit(i)]
  }

  /** Button `i` of the scatter, placed at `pos`. */
  function DecoyButton(i: nat, pos: Position): NoButton
    requires i < 10
  {
    NoButton(FakeId(i), pos.x, pos.y, HalfSize, ReallyLabel, i == RealDecoyIndex)
  }

  /** The five-button scatter; button `i` takes the `i`-th drawn position. */
  function ScatterLayout(draw: nat -> Position): seq<NoButton> {
    seq(DecoyCount, i requires 0 <= i < DecoyCount => DecoyButton(i, draw(i)))
  }

  /** Number of real buttons in a list. */
  function RealCount(bs: seq<NoButton>): nat {
    if bs == [] then 0 else (if bs[0].isReal then 1 else 0) + RealCount(bs[1..])
  }

  predicate DistinctIds(bs: seq<NoButton>) {
    forall i, j :: 0 <= i < j < |bs| ==> bs[i].id != bs[j].id
  }

  /** `Array.prototype.find` by id: the first button with that id, if any. */
  function Find(bs: seq<NoButton>, id: string): (r: Option<NoButton>)
    ensures r.Some? ==> r.value in bs && r.value.id == id
    ensures r.None? <==> forall b :: b in bs ==> b.id != id
  {
    if bs == [] then None
    else if bs[0].id == id then Some(bs[0])
    else Find(bs[1..], id)
  }

  /** `filter(btn => btn.id !== id)`: drops every button with that id. */
  function RemoveId(bs: seq<NoButton>, id: string): (r: seq<NoButton>)
    ensures |r| <= |bs|
    ensures forall b :: b in r <==> b in bs && b.id != id
    ensures (forall b :: b in bs ==> b.id != id) ==> r == bs
  {
    if bs == [] then []
    else (if bs[0].id != id then [bs[0]] else []) + RemoveId(bs[1..], id)
  }

  /** The loop building the scatter (one position drawn per iteration). */
  method BuildScatter(draw: nat -> Position) returns (bs: seq<NoButton>)
    ensures bs == ScatterLayout(draw)
    ensures |bs| == DecoyCount && RealCount(bs) == 1 && DistinctIds(bs)
    ensures forall i :: 0 <= i < |bs| ==> (bs[i].isReal <==> i == RealDecoyIndex)
  {
    bs := [];
    var i := 0;
    while i < DecoyCount
      invariant 0 <= i <= DecoyCount
      invariant |bs| == i
      invariant forall k :: 0 <= k < i ==> bs[k] == DecoyButton(k, draw(k))
    {
      var pos := draw(i);
      bs := bs + [NoButton(FakeId(i), pos.x, pos.y, HalfSize, ReallyLabel, i == RealDecoyIndex)];
      i := i + 1;
    }
    ScatterShape(draw);
  }

  // ---------------------------------------------------------------------
  // Lemmas
  // ---------------------------------------------------------------------

  /** Distinct indices give distinct decoy ids, none of them "main". */
  lemma FakeIdInjective(i: nat, j: nat)
    requires i < 10 && j < 10
    ensures FakeId(i) == FakeId(j) <==> i == j
    ensures FakeId(i) != MainId
  {
    if FakeId(i) == FakeId(j) {
      assert FakeId(i)[5] == Digit(i);
      assert FakeId(j)[5] == Digit(j);
    }
    assert |FakeId(i)| == 6;
  }

  /** A list whose only real button sits at index `k` has one real button. */
  lemma {:induction false} RealCountSingle(bs: seq<NoButton>, k: nat)
    requires k < |bs| && bs[k].isReal
    requires forall i :: 0 <= i < |bs| && i != k ==> !bs[i].isReal
    ensures RealCount(bs) == 1
  {
    if k == 0 {
      RealCountNone(bs[1..]);
    } else {
      RealCountSingle(bs[1..], k - 1);
    }
  }

  /** No real button, no count. */
  lemma {:induction false} RealCountNone(bs: seq<NoButton>)
    requires forall i :: 0 <= i < |bs| ==> !bs[i].isReal
    ensures RealCount(bs) == 0
  {
    if bs != [] {
      RealCountNone(bs[1..]);
    }
  }

  /** With at most one real button, two real buttons are the same one. */
  lemma {:induction false} RealCountAtMostOne(bs: seq<NoButton>, i: nat, j: nat)
    requires RealCount(bs) <= 1
    requires i < |bs| && j < |bs| && bs[i].isReal && bs[j].isReal
    ensures i == j
  {
    if i != 0 && j != 0 {
      RealCountAtMostOne(bs[1..], i - 1, j - 1);
    } else if i != j {
      var other := if i == 0 then j else i;
      RealCountPositive(bs[1..], other - 1);
    }
  }

  /** A real button anywhere makes the count positive. */
  lemma {:induction false} RealCountPositive(bs: seq<NoButton>, k: nat)
    requires k < |bs| && bs[k].isReal
    ensures RealCount(bs) >= 1
  {
    if k > 0 {
      RealCountPositive(bs[1..], k - 1);
    }
  }

  /** The scatter: five buttons "fake-0" .. "fake-4", all half size and
      labelled "Really?", exactly one real and that one at index 2. */
  lemma ScatterShape(draw: nat -> Position)
    ensures var bs := ScatterLayout(draw);
      && |bs| == DecoyCount
      && (forall i :: 0 <= i < DecoyCount ==>
            bs[i].id == FakeId(i) && bs[i].size == HalfSize && bs[i].text == ReallyLabel
            && bs[i].x == draw(i).x && bs[i].y == draw(i).y
            && (bs[i].isReal <==> i == RealDecoyIndex))
      && RealCount(bs) == 1
      && bs[RealDecoyIndex].id == "fake-2"
      && DistinctIds(bs)
      && (forall b :: b in bs ==> b.id != MainId)
  {
    var bs := ScatterLayout(draw);
    forall i | 0 <= i < DecoyCount ensures bs[i] == DecoyButton(i, draw(i)) {
    }
    RealCountSingle(bs, RealDecoyIndex);
    forall i, j | 0 <= i < j < |bs| ensures bs[i].id != bs[j].id {
      FakeIdInjective(i, j);
    }
    forall b | b in bs ensures b.id != MainId {
      var i :| 0 <= i < |bs| && bs[i] == b;
      FakeIdInjective(i, i);
    }
  }

  /** `Find` returns the first button carrying the id. */
  lemma {:induction false} FindFirst(bs: seq<NoButton>, id: string, k: nat)
    requires k < |bs| && bs[k].id == id
    requires forall i :: 0 <= i < k ==> bs[i].id != id
    ensures Find(bs, id) == Some(bs[k])
  {
    if k > 0 {
      assert bs[0].id != id;
      FindFirst(bs[1..], id, k - 1);
    }
  }

  /** In a list with distinct ids, `Find` returns the unique button with that id. */
  lemma FindUnique(bs: seq<NoButton>, k: nat)
    requires DistinctIds(bs) && k < |bs|
    ensures Find(bs, bs[k].id) == Some(bs[k])
  {
    FindFirst(bs, bs[k].id, k);
  }

  lemma DistinctTail(bs: seq<NoButton>)
    requires DistinctIds(bs) && bs != []
    ensures DistinctIds(bs[1..])
  {
    forall i, j | 0 <= i < j < |bs| - 1 ensures bs[1..][i].id != bs[1..][j].id {
      assert bs[1..][i] == bs[i + 1] && bs[1..][j] == bs[j + 1];
    }
  }

  /** With distinct ids, the id of a decoy is the id of no real button. */
  lemma DecoyIdNamesNoReal(bs: seq<NoButton>, j: nat)
    requires DistinctIds(bs) && j < |bs| && !bs[j].isReal
    ensures forall b :: b in bs && b.isReal ==> b.id != bs[j].id
  {
    forall b | b in bs && b.isReal ensures b.id != bs[j].id {
      var i :| 0 <= i < |bs| && bs[i] == b;
      assert i != j;
    }
  }

  /** Filtering distributes over concatenation, so it keeps the order of
      the buttons it keeps. */
  lemma {:induction false} RemoveIdAppend(a: seq<NoButton>, b: seq<NoButton>, id: string)
    ensures RemoveId(a + b, id) == RemoveId(a, id) + RemoveId(b, id)
  {
    if a == [] {
      assert a + b == b;
    } else {
      var head := if a[0].id != id then [a[0]] else [];
      calc {
        RemoveId(a + b, id);
        { assert (a + b)[0] == a[0] && (a + b)[1..] == a[1..] + b; }
        head + RemoveId(a[1..] + b, id);
        { RemoveIdAppend(a[1..], b, id); }
        head + (RemoveId(a[1..], id) + RemoveId(b, id));
        (head + RemoveId(a[1..], id)) + RemoveId(b, id);
        RemoveId(a, id) + RemoveId(b, id);
      }
    }
  }

  /** A second identical filter changes nothing. */
  lemma RemoveIdIdempotent(bs: seq<NoButton>, id: string)
    ensures RemoveId(RemoveId(bs, id), id) == RemoveId(bs, id)
  {
  }

  /** With distinct ids, removing the id of button `k` removes exactly that
      button and keeps the others in order. */
  lemma {:induction false} RemoveIdAt(bs: seq<NoButton>, k: nat)
    requires DistinctIds(bs) && k < |bs|
    ensures RemoveId(bs, bs[k].id) == bs[..k] + bs[k + 1..]
  {
    DistinctTail(bs);
    if k == 0 {
      RemoveIdHead(bs);
    } else {
      var id := bs[k].id;
      var tail := bs[1..];
      assert bs[0].id != id;
      assert tail[k - 1] == bs[k];
      calc {
        RemoveId(bs, id);
        [bs[0]] + RemoveId(tail, id);
        { RemoveIdAt(tail, k - 1); }
        [bs[0]] + (tail[..k - 1] + tail[k..]);
        { assert tail[..k - 1] == bs[1..k] && tail[k..] == bs[k + 1..]; }
        [bs[0]] + (bs[1..k] + bs[k + 1..]);
        { assert [bs[0]] + bs[1..k] == bs[..k]; }
        bs[..k] + bs[k + 1..];
      }
    }
  }

  lemma RemoveIdHead(bs: seq<NoButton>)
    requires DistinctIds(bs) && bs != []
    ensures RemoveId(bs, bs[0].id) == bs[1..]
  {
    var id := bs[0].id;
    forall b | b in bs[1..] ensures b.id != id {
      var i :| 0 <= i < |bs| - 1 && bs[1..][i] == b;
      assert bs[i + 1] == b;
    }
  }

  /** Filtering never adds a real button, and keeps the count when the
      removed id names no real button. */
  lemma {:induction false} RemoveIdRealCount(bs: seq<NoButton>, id: string)
    ensures RealCount(RemoveId(bs, id)) <= RealCount(bs)
    ensures (forall b :: b in bs && b.isReal ==> b.id != id) ==>
              RealCount(RemoveId(bs, id)) == RealCount(bs)
  {
    if bs != [] {
      RemoveIdRealCount(bs[1..], id);
      RemoveIdAppend([bs[0]], bs[1..], id);
      assert bs == [bs[0]] + bs[1..];
      assert RemoveId([bs[0]], id) == if bs[0].id != id then [bs[0]] else [] by {
        assert [bs[0]][1..] == [];
      }
      RealCountAppend(RemoveId([bs[0]], id), RemoveId(bs[1..], id));
    }
  }

  lemma {:induction false} RealCountAppend(a: seq<NoButton>, b: seq<NoButton>)
    ensures RealCount(a + b) == RealCount(a) + RealCount(b)
  {
    if a == [] {
      assert a + b == b;
    } else {
      assert (a + b)[1..] == a[1..] + b;
      RealCountAppend(a[1..], b);
    }
  }

  /** Filtering keeps ids distinct. */
  lemma {:induction false} RemoveIdDistinct(bs: seq<NoButton>, id: string)
    requires DistinctIds(bs)
    ensures DistinctIds(RemoveId(bs, id))
  {
    if bs != [] {
      DistinctTail(bs);
      RemoveIdDistinct(bs[1..], id);
      var rest := RemoveId(bs[1..], id);
      if bs[0].id != id {
        assert forall b :: b in bs[1..] ==> b.id != bs[0].id by {
          HeadIdFresh(bs);
        }
        DistinctCons(bs[0], rest);
      }
    }
  }

  lemma HeadIdFresh(bs: seq<NoButton>)
    requires DistinctIds(bs) && bs != []
    ensures forall b :: b in bs[1..] ==> b.id != bs[0].id
  {
    forall b | b in bs[1..] ensures b.id != bs[0].id {
      var i :| 0 <= i < |bs| - 1 && bs[1..][i] == b;
      assert bs[i + 1] == b;
    }
  }

  lemma DistinctCons(b: NoButton, rest: seq<NoButton>)
    requires DistinctIds(rest)
    requires forall c :: c in rest ==> c.id != b.id
    ensures DistinctIds([b] + rest)
  {
    var r := [b] + rest;
    forall i, j | 0 <= i < j < |r| ensures r[i].id != r[j].id {
      assert r[j] == rest[j - 1];
      if i > 0 {
        assert r[i] == rest[i - 1];
      }
    }
  }
}
