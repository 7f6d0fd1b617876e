/**
 The default owner selection of `placement/placement.go`: among the eligible
 owners, the one whose hash together with the group is greatest.

 SHA-256 is an arbitrary function, so nothing here rests on its strength.
 */
module Rendezvous {
  import opened Prelude
  import opened Varint
  import P = Placement

  const TWO_62: nat := 0x4000_0000_0000_0000

  // ---------------------------------------------------------------- pre-image

  /** `appendQUICVarint`: a tag is or-ed into the two top bits, which a value beyond the range already uses. */
  function QuicVarint(v: nat): Bytes {
    if v <= 63 then BigEndian(v, 1)
    else if v <= 16383 then BigEndian(v + 0x4000, 2)
    else if v <= 1073741823 then BigEndian(v + 0x8000_0000, 4)
    else BigEndian(v % TWO_62 + 0xC000_0000_0000_0000, 8)
  }

  method AppendQuicVarint(dst: Bytes, v: nat) returns (r: Bytes)
    requires v < 0x1_0000_0000_0000_0000
    ensures r == dst + QuicVarint(v)
    ensures v <= MAX_VARINT ==> r == dst + VarintBytes(v)
  {
    QuicVarintAgrees(v);
    if v <= 63 {
      var b: byte := v;
      assert BigEndian(v, 1) == BigEndian(v / 256, 0) + [v % 256] == [b];
      return dst + [b];
    } else if v <= 16383 {
      return dst + BigEndian(v + 0x4000, 2);
    } else if v <= 1073741823 {
      return dst + BigEndian(v + 0x8000_0000, 4);
    } else {
      return dst + BigEndian(v % TWO_62 + 0xC000_0000_0000_0000, 8);
    }
  }

  /** It is the wire encoding exactly on the varint range. */
  lemma QuicVarintAgrees(v: nat)
    ensures EncodeVarint(v) == Ok(QuicVarint(v)) <==> v <= MAX_VARINT
  {
    if 1073741823 < v <= MAX_VARINT {
      assert v % TWO_62 == v;
    }
  }

  function Prefixed(value: Bytes): Bytes {
    QuicVarint(|value|) + value
  }

  function Preimage(app: Bytes, key: Bytes, id: Bytes, incarnation: Bytes): Bytes {
    Prefixed(app) + Prefixed(key) + Prefixed(id) + incarnation
  }

  method BuildPreimage(group: P.GroupId, owner: P.Owner) returns (buf: Bytes)
    requires |group.app.id| <= MAX_INT && |group.key| <= MAX_INT && |owner.id| <= MAX_INT
    ensures buf == Preimage(group.app.id, group.key, owner.id, owner.incarnation)
  {
    hide QuicVarint;
    buf := [];
    var values := [group.app.id, group.key, owner.id];
    var i := 0;
    while i < 3
      invariant 0 <= i <= 3
      invariant buf == (if i > 0 then Prefixed(values[0]) else []) + (if i > 1 then Prefixed(values[1]) else [])
                       + (if i > 2 then Prefixed(values[2]) else [])
    {
      ghost var before := buf;
      buf := AppendQuicVarint(buf, |values[i]|);
      buf := buf + values[i];
      assert buf == before + Prefixed(values[i]);
      i := i + 1;
    }
    buf := buf + owner.incarnation;
  }

  /** A length-prefixed string can be taken off the front in one way only. */
  lemma PrefixedCancels(a: Bytes, x: Bytes, b: Bytes, y: Bytes)
    requires |a| <= MAX_VARINT && |b| <= MAX_VARINT && Prefixed(a) + x == Prefixed(b) + y
    ensures a == b && x == y
  {
    hide QuicVarint, Prefixed, ParseVarint;
    PrefixedParses(a, x);
    PrefixedParses(b, y);
    assert a + x == b + y;
    assert a == (a + x)[..|a|] && b == (b + y)[..|b|];
    assert x == (a + x)[|a|..] && y == (b + y)[|b|..];
  }

  lemma PrefixedParses(a: Bytes, x: Bytes)
    requires |a| <= MAX_VARINT
    ensures var n := |QuicVarint(|a|)|;
            ParseVarint(Prefixed(a) + x) == Ok((|a|, n)) && n <= |Prefixed(a) + x| && (Prefixed(a) + x)[n..] == a + x
  {
    QuicVarintAgrees(|a|);
    VarintRoundTrip(|a|, a + x);
    hide QuicVarint, VarintBytes, ParseVarint;
    assert Prefixed(a) + x == VarintBytes(|a|) + (a + x);
  }

  /** No two owners and groups share a pre-image. */
  lemma PreimageInjective(app: Bytes, key: Bytes, id: Bytes, inc: Bytes, app': Bytes, key': Bytes, id': Bytes,
                          inc': Bytes)
    requires |app| <= MAX_VARINT && |key| <= MAX_VARINT && |id| <= MAX_VARINT
    requires |app'| <= MAX_VARINT && |key'| <= MAX_VARINT && |id'| <= MAX_VARINT
    ensures Preimage(app, key, id, inc) == Preimage(app', key', id', inc') <==>
              app == app' && key == key' && id == id' && inc == inc'
  {
    hide Prefixed;
    if Preimage(app, key, id, inc) == Preimage(app', key', id', inc') {
      var z, z' := Prefixed(id) + inc, Prefixed(id') + inc';
      var y, y' := Prefixed(key) + z, Prefixed(key') + z';
      assert Preimage(app, key, id, inc) == Prefixed(app) + y && Preimage(app', key', id', inc') == Prefixed(app') + y';
      PrefixedCancels(app, y, app', y');
      PrefixedCancels(key, z, key', z');
      PrefixedCancels(id, inc, id', inc');
    }
  }

  // ----------------------------------------------------------------- ordering

  /** String comparison: by the first byte that differs, a proper prefix being smaller. */
  predicate Less(a: Bytes, b: Bytes) {
    b != [] && (a == [] || a[0] < b[0] || (a[0] == b[0] && Less(a[1..], b[1..])))
  }

  lemma {:induction false} LessTotal(a: Bytes, b: Bytes)
    ensures Less(a, b) || Less(b, a) || a == b
    ensures !(Less(a, b) && Less(b, a)) && !Less(a, a)
  {
    if a != [] && b != [] {
      LessTotal(a[1..], b[1..]);
      LessTotal(a[1..], a[1..]);
      if a[0] == b[0] && a[1..] == b[1..] {
        assert a == [a[0]] + a[1..] && b == [b[0]] + b[1..];
      }
    } else if a != [] {
      LessTotal(a[1..], a[1..]);
    }
  }

  lemma {:induction false} LessTransitive(a: Bytes, b: Bytes, c: Bytes)
    requires Less(a, b) && Less(b, c)
    ensures Less(a, c)
  {
    if a != [] && a[0] == b[0] && b[0] == c[0] {
      LessTransitive(a[1..], b[1..], c[1..]);
    }
  }

  function Score(hash: Bytes -> Bytes, g: P.GroupId, o: P.Owner): Bytes {
    hash(Preimage(g.app.id, g.key, o.id, o.incarnation))
  }

  /** The comparator handed to `sort.Slice`. */
  predicate Before(hash: Bytes -> Bytes, g: P.GroupId, a: P.Owner, b: P.Owner) {
    var left, right := Score(hash, g, a), Score(hash, g, b);
    if left != right then Less(right, left)
    else if a.id != b.id then Less(a.id, b.id)
    else Less(a.incarnation, b.incarnation)
  }

  /** The comparator is a strict order, so sorting with it is well defined, and it
      separates any two incarnations whatever the hash does. */
  lemma BeforeIsStrictOrder(hash: Bytes -> Bytes, g: P.GroupId, a: P.Owner, b: P.Owner, c: P.Owner)
    ensures !Before(hash, g, a, a) && !(Before(hash, g, a, b) && Before(hash, g, b, a))
    ensures Before(hash, g, a, b) && Before(hash, g, b, c) ==> Before(hash, g, a, c)
    ensures Before(hash, g, a, b) || Before(hash, g, b, a) <==> !P.SameIncarnation(a, b)
  {
    hide Less, Score;
    Separates(hash, g, a, b);
    Separates(hash, g, a, a);
    if Before(hash, g, a, b) && Before(hash, g, b, c) {
      Chains(hash, g, a, b, c);
    }
  }

  lemma Separates(hash: Bytes -> Bytes, g: P.GroupId, a: P.Owner, b: P.Owner)
    ensures !(Before(hash, g, a, b) && Before(hash, g, b, a))
    ensures Before(hash, g, a, b) || Before(hash, g, b, a) <==> !P.SameIncarnation(a, b)
  {
    hide Less;
    LessTotal(Score(hash, g, a), Score(hash, g, b));
    LessTotal(a.id, b.id);
    LessTotal(a.incarnation, b.incarnation);
  }

  lemma Chains(hash: Bytes -> Bytes, g: P.GroupId, a: P.Owner, b: P.Owner, c: P.Owner)
    requires Before(hash, g, a, b) && Before(hash, g, b, c)
    ensures Before(hash, g, a, c)
  {
    hide Less, Score;
    var x, y, z := Score(hash, g, a), Score(hash, g, b), Score(hash, g, c);
    LessTotal(x, z);
    if x != y && y != z {
      LessTransitive(z, y, x);
    } else if x == y && y == z {
      LessTotal(a.id, c.id);
      if a.id != b.id && b.id != c.id {
        LessTransitive(a.id, b.id, c.id);
      } else if a.id == b.id && b.id == c.id {
        LessTransitive(a.incarnation, b.incarnation, c.incarnation);
      }
    }
  }

  // ---------------------------------------------------------------- selection

  predicate Eligible(s: P.OwnerStatus) {
    s.healthy && !s.draining && s.hasCapacity
  }

  function Filtered(candidates: seq<P.OwnerStatus>): (r: seq<P.OwnerStatus>)
    ensures forall x :: x in r <==> x in candidates && Eligible(x)
  {
    if candidates == [] then []
    else
      var front, last := candidates[..|candidates| - 1], candidates[|candidates| - 1];
      assert candidates == front + [last];
      if Eligible(last) then Filtered(front) + [last] else Filtered(front)
  }

  /** `o` may be at the head once the eligible candidates are sorted: nothing comes before it. */
  ghost predicate Heads(hash: Bytes -> Bytes, g: P.GroupId, candidates: seq<P.OwnerStatus>, o: P.Owner) {
    && (exists i :: 0 <= i < |candidates| && Eligible(candidates[i]) && candidates[i].owner == o)
    && (forall i :: 0 <= i < |candidates| && Eligible(candidates[i]) ==> !Before(hash, g, candidates[i].owner, o))
  }

  /** Whatever algorithm sorts the eligible candidates, the owner it leaves first heads them. */
  lemma SortedHead(hash: Bytes -> Bytes, g: P.GroupId, candidates: seq<P.OwnerStatus>, sorted: seq<P.OwnerStatus>)
    requires sorted != [] && multiset(sorted) == multiset(Filtered(candidates))
    requires forall i, j :: 0 <= i < j < |sorted| ==> !Before(hash, g, sorted[j].owner, sorted[i].owner)
    ensures Heads(hash, g, candidates, sorted[0].owner)
  {
    hide Before;
    assert sorted[0] in multiset(sorted);
    assert sorted[0] in Filtered(candidates);
    forall i | 0 <= i < |candidates| && Eligible(candidates[i])
      ensures !Before(hash, g, candidates[i].owner, sorted[0].owner)
    {
      assert candidates[i] in multiset(Filtered(candidates));
      var j :| 0 <= j < |sorted| && sorted[j] == candidates[i];
      BeforeIsStrictOrder(hash, g, sorted[0].owner, sorted[0].owner, sorted[0].owner);
    }
  }

  /** `selectOwner` without a custom selector; the sort is a search for the owner it would leave first. */
  method SelectOwner(hash: Bytes -> Bytes, g: P.GroupId, candidates: seq<P.OwnerStatus>) returns (r: P.Outcome<P.Owner>)
    ensures r.Done? ==> Heads(hash, g, candidates, r.value) && Greatest(hash, g, candidates, r.value)
    ensures r.Failed? ==> r.error == P.ServerUnavailable
    ensures r.Failed? <==> forall s :: s in candidates ==> !(s.healthy && !s.draining && s.hasCapacity)
  {
    hide Before;
    var eligible: seq<P.OwnerStatus> := [];
    var i := 0;
    while i < |candidates|
      invariant 0 <= i <= |candidates| && eligible == Filtered(candidates[..i])
    {
      assert candidates[..i + 1][..i] == candidates[..i];
      if Eligible(candidates[i]) {
        eligible := eligible + [candidates[i]];
      }
      i := i + 1;
    }
    assert candidates[..i] == candidates;
    if |eligible| == 0 {
      return P.Failed(P.ServerUnavailable);
    }
    var first := eligible[0].owner;
    assert eligible[0] in candidates;
    BeforeIsStrictOrder(hash, g, first, first, first);
    i := 1;
    while i < |eligible|
      invariant 1 <= i <= |eligible|
      invariant exists k :: 0 <= k < |candidates| && Eligible(candidates[k]) && candidates[k].owner == first
      invariant forall k :: 0 <= k < i ==> !Before(hash, g, eligible[k].owner, first)
    {
      assert eligible[i] in candidates;
      BeforeIsStrictOrder(hash, g, eligible[i].owner, eligible[i].owner, first);
      if Before(hash, g, eligible[i].owner, first) {
        Improves(hash, g, eligible[..i], first, eligible[i].owner);
        first := eligible[i].owner;
      }
      i := i + 1;
    }
    GreatestScoreWins(hash, g, candidates, first);
    return P.Done(first);
  }

  lemma Improves(hash: Bytes -> Bytes, g: P.GroupId, seen: seq<P.OwnerStatus>, first: P.Owner, better: P.Owner)
    requires Before(hash, g, better, first) && forall k :: 0 <= k < |seen| ==> !Before(hash, g, seen[k].owner, first)
    ensures forall k :: 0 <= k < |seen| ==> !Before(hash, g, seen[k].owner, better)
  {
    hide Before;
    forall k | 0 <= k < |seen| ensures !Before(hash, g, seen[k].owner, better) {
      BeforeIsStrictOrder(hash, g, seen[k].owner, better, first);
    }
  }

  /** No two different owners in the snapshot share identifier and incarnation, as the registry's key ensures. */
  ghost predicate Distinct(candidates: seq<P.OwnerStatus>) {
    forall x, y :: x in candidates && y in candidates && P.SameIncarnation(x.owner, y.owner) ==> x.owner == y.owner
  }

  /** The choice from a larger snapshot, where it is available in the smaller one, is the choice there too. */
  lemma ChoiceIsLocal(hash: Bytes -> Bytes, g: P.GroupId, more: seq<P.OwnerStatus>, fewer: seq<P.OwnerStatus>,
                      o: P.Owner, o': P.Owner)
    requires Distinct(more) && (forall i :: 0 <= i < |fewer| ==> fewer[i] in more)
    requires Heads(hash, g, more, o) && Heads(hash, g, fewer, o')
    requires exists i :: 0 <= i < |fewer| && Eligible(fewer[i]) && fewer[i].owner == o
    ensures o == o'
  {
    hide Before;
    var i :| 0 <= i < |fewer| && Eligible(fewer[i]) && fewer[i].owner == o;
    var j :| 0 <= j < |fewer| && Eligible(fewer[j]) && fewer[j].owner == o';
    assert fewer[j] in more && fewer[i] in more;
    var x :| 0 <= x < |more| && more[x] == fewer[i];
    var y :| 0 <= y < |more| && more[y] == fewer[j];
    BeforeIsStrictOrder(hash, g, o, o', o);
  }

  /** The choice does not depend on the order of the snapshot. */
  lemma OrderIndependent(hash: Bytes -> Bytes, g: P.GroupId, a: seq<P.OwnerStatus>, b: seq<P.OwnerStatus>, o: P.Owner,
                         o': P.Owner)
    requires Distinct(a) && multiset(a) == multiset(b) && Heads(hash, g, a, o) && Heads(hash, g, b, o')
    ensures o == o'
  {
    hide Before;
    forall i | 0 <= i < |b| ensures b[i] in a {
      assert b[i] in multiset(b);
    }
    var k :| 0 <= k < |a| && Eligible(a[k]) && a[k].owner == o;
    assert a[k] in multiset(a);
    assert a[k] in b;
    ChoiceIsLocal(hash, g, a, b, o, o');
  }

  /** Removing an owner that was not chosen changes nothing. */
  lemma RemovalIsLocal(hash: Bytes -> Bytes, g: P.GroupId, a: seq<P.OwnerStatus>, k: nat, o: P.Owner, o': P.Owner)
    requires k < |a| && Distinct(a) && a[k].owner != o && Heads(hash, g, a, o)
    requires Heads(hash, g, a[..k] + a[k + 1..], o')
    ensures o == o'
  {
    hide Before;
    var b := a[..k] + a[k + 1..];
    var i :| 0 <= i < |a| && Eligible(a[i]) && a[i].owner == o;
    assert if i < k then b[i] == a[i] else b[i - 1] == a[i];
    ChoiceIsLocal(hash, g, a, b, o, o');
  }

  /** Adding an owner, wherever in the snapshot, leaves the choice alone or moves it to the added one. */
  lemma AdditionIsLocal(hash: Bytes -> Bytes, g: P.GroupId, a: seq<P.OwnerStatus>, k: nat, added: P.OwnerStatus,
                        o: P.Owner, o': P.Owner)
    requires k <= |a| && Distinct(a[..k] + [added] + a[k..])
    requires Heads(hash, g, a, o) && Heads(hash, g, a[..k] + [added] + a[k..], o')
    ensures o' == o || o' == added.owner
  {
    hide Before;
    var b := a[..k] + [added] + a[k..];
    forall i | 0 <= i < |a| ensures a[i] in b {
      assert if i < k then b[i] == a[i] else b[i + 1] == a[i];
    }
    var i :| 0 <= i < |b| && Eligible(b[i]) && b[i].owner == o';
    if i != k {
      assert if i < k then b[i] == a[i] else b[i] == a[i - 1];
      ChoiceIsLocal(hash, g, b, a, o', o);
    }
  }

  // --------------------------------------------------------- who must be chosen

  /** `k` is the first position at which `a` and `b` differ, and `a` is the smaller there. */
  predicate SmallerAt(a: Bytes, b: Bytes, k: nat) {
    k <= |a| && k < |b| && a[..k] == b[..k] && (k == |a| || a[k] < b[k])
  }

  /** The comparison is the lexicographic one: by the first difference, a proper prefix being smaller. */
  lemma {:induction false} LessIsLexicographic(a: Bytes, b: Bytes)
    ensures Less(a, b) <==> exists k :: SmallerAt(a, b, k)
  {
    if Less(a, b) {
      var k := FirstDifference(a, b);
      assert SmallerAt(a, b, k);
    }
    if k: nat :| SmallerAt(a, b, k) {
      SmallerIsLess(a, b, k);
    }
  }

  lemma {:induction false} FirstDifference(a: Bytes, b: Bytes) returns (k: nat)
    requires Less(a, b)
    ensures SmallerAt(a, b, k)
  {
    if a == [] || a[0] < b[0] {
      return 0;
    }
    k := FirstDifference(a[1..], b[1..]);
    assert a[..k + 1] == [a[0]] + a[1..][..k] && b[..k + 1] == [b[0]] + b[1..][..k];
    k := k + 1;
  }

  lemma {:induction false} SmallerIsLess(a: Bytes, b: Bytes, k: nat)
    requires SmallerAt(a, b, k)
    ensures Less(a, b)
  {
    if k > 0 {
      assert a[0] == a[..k][0] && b[0] == b[..k][0];
      assert a[1..][..k - 1] == a[..k][1..] && b[1..][..k - 1] == b[..k][1..];
      SmallerIsLess(a[1..], b[1..], k - 1);
    }
  }

  /** The chosen owner is eligible and has the greatest score of all eligible ones;
      among those of that score it has the least identifier, and then the least
      incarnation. */
  lemma GreatestScoreWins(hash: Bytes -> Bytes, g: P.GroupId, candidates: seq<P.OwnerStatus>, o: P.Owner)
    requires Heads(hash, g, candidates, o)
    ensures Greatest(hash, g, candidates, o)
  {
    hide Before, Outranks;
    forall s | s in candidates && s.healthy && !s.draining && s.hasCapacity ensures Outranks(hash, g, o, s.owner) {
      var i :| 0 <= i < |candidates| && candidates[i] == s;
      NotBefore(hash, g, s.owner, o);
    }
  }

  lemma NotBefore(hash: Bytes -> Bytes, g: P.GroupId, x: P.Owner, o: P.Owner)
    requires !Before(hash, g, x, o)
    ensures Outranks(hash, g, o, x)
  {
    hide Less, Preimage;
    LessTotal(Score(hash, g, o), Score(hash, g, x));
    LessTotal(o.id, x.id);
    LessTotal(o.incarnation, x.incarnation);
  }

  ghost predicate Outranks(hash: Bytes -> Bytes, g: P.GroupId, o: P.Owner, x: P.Owner) {
    var mine := hash(Preimage(g.app.id, g.key, o.id, o.incarnation));
    var theirs := hash(Preimage(g.app.id, g.key, x.id, x.incarnation));
    && !Less(mine, theirs)
    && (mine == theirs ==> !Less(x.id, o.id))
    && (mine == theirs && x.id == o.id ==> !Less(x.incarnation, o.incarnation))
  }

  ghost predicate Greatest(hash: Bytes -> Bytes, g: P.GroupId, candidates: seq<P.OwnerStatus>, o: P.Owner) {
    && (exists s :: s in candidates && s.healthy && !s.draining && s.hasCapacity && s.owner == o)
    && (forall s :: s in candidates && s.healthy && !s.draining && s.hasCapacity ==> Outranks(hash, g, o, s.owner))
  }

  /** The hashed bytes: three strings, each after its length, then the incarnation. */
  lemma PreimageLayout(app: Bytes, key: Bytes, id: Bytes, incarnation: Bytes)
    requires |app| <= MAX_VARINT && |key| <= MAX_VARINT && |id| <= MAX_VARINT
    ensures Preimage(app, key, id, incarnation)
         == VarintBytes(|app|) + app + VarintBytes(|key|) + key + VarintBytes(|id|) + id + incarnation
  {
    QuicVarintAgrees(|app|);
    QuicVarintAgrees(|key|);
    QuicVarintAgrees(|id|);
    hide QuicVarint, VarintBytes;
    var a, b, c := VarintBytes(|app|), VarintBytes(|key|), VarintBytes(|id|);
    assert Prefixed(app) + Prefixed(key) == a + app + b + key;
    assert a + app + b + key + Prefixed(id) == a + app + b + key + c + id;
  }

  /** The score of an owner for a group is the hash of the application, the group key, the owner's
      identifier and its incarnation; the application's version has no part in it. */
  lemma ScoreLayout(hash: Bytes -> Bytes, g: P.GroupId, o: P.Owner)
    requires |g.app.id| <= MAX_VARINT && |g.key| <= MAX_VARINT && |o.id| <= MAX_VARINT
    ensures Score(hash, g, o)
         == hash(VarintBytes(|g.app.id|) + g.app.id + VarintBytes(|g.key|) + g.key + VarintBytes(|o.id|) + o.id
                 + o.incarnation)
  {
    PreimageLayout(g.app.id, g.key, o.id, o.incarnation);
  }
}
