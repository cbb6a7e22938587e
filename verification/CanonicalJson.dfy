/**
The canonical payload check: an observation is accepted if its text is exactly the compact,
key-sorted text of the object it reads as, without a repeated key at any depth.
*/
module CanonicalJson {
  import opened JsonReader
  import opened JsonText
  import opened LogReader
  import opened LogTheorems
  import opened Options

  // ---------- keys in order ----------

  /** Strings are ordered character by character. */
  predicate KeyLess(a: seq<CodePoint>, b: seq<CodePoint>)
    decreases |a|
  {
    b != [] && (a == [] || a[0] < b[0] || (a[0] == b[0] && KeyLess(a[1..], b[1..])))
  }

  lemma {:induction false} KeysComparable(a: seq<CodePoint>, b: seq<CodePoint>)
    ensures a == b || KeyLess(a, b) || KeyLess(b, a)
    ensures !(KeyLess(a, b) && KeyLess(b, a)) && !KeyLess(a, a)
    decreases |a|
  {
    if a != [] && b != [] && a[0] == b[0] {
      KeysComparable(a[1..], b[1..]);
      assert a == [a[0]] + a[1..] && b == [b[0]] + b[1..];
    }
    if a != [] {
      KeysComparable(a[1..], a[1..]);
    }
  }

  lemma {:induction false} KeysTransitive(a: seq<CodePoint>, b: seq<CodePoint>, c: seq<CodePoint>)
    requires KeyLess(a, b) && KeyLess(b, c)
    ensures KeyLess(a, c)
    decreases |a|
  {
    if a != [] && a[0] == b[0] && b[0] == c[0] {
      KeysTransitive(a[1..], b[1..], c[1..]);
    }
  }

  predicate Ascending(members: seq<Member>) {
    forall i, j :: 0 <= i < j < |members| ==> KeyLess(members[i].key, members[j].key)
  }

  predicate KeysDistinct(members: seq<Member>) {
    forall i, j :: 0 <= i < j < |members| ==> members[i].key != members[j].key
  }

  function InsertMember(m: Member, sorted: seq<Member>): (r: seq<Member>)
    ensures |r| == |sorted| + 1
    decreases |sorted|
  {
    if sorted == [] || !KeyLess(sorted[0].key, m.key) then [m] + sorted
    else [sorted[0]] + InsertMember(m, sorted[1..])
  }

  function SortMembers(members: seq<Member>): (r: seq<Member>)
    ensures |r| == |members|
  {
    if members == [] then [] else InsertMember(members[0], SortMembers(members[1..]))
  }

  /** The value with the keys of all its objects sorted. */
  function Arrange(v: Json): Json
    decreases v, 1
  {
    match v
    case Array(items) => Array(ArrangeItems(items))
    case Object(members) => Object(SortMembers(ArrangeMembers(members)))
    case _ => v
  }

  function ArrangeItems(items: seq<Json>): (r: seq<Json>)
    decreases items, 0
  {
    if items == [] then [] else [Arrange(items[0])] + ArrangeItems(items[1..])
  }

  function ArrangeMembers(members: seq<Member>): (r: seq<Member>)
    ensures |r| == |members| && forall i :: 0 <= i < |r| ==> r[i].key == members[i].key
    decreases members, 0
  {
    if members == [] then []
    else [Member(members[0].key, Arrange(members[0].value))] + ArrangeMembers(members[1..])
  }

  /** Some object at any depth has a key twice. */
  predicate RepeatsKey(v: Json) {
    match v
    case Array(items) => exists item | item in items :: RepeatsKey(item)
    case Object(members) => !KeysDistinct(members) || exists m | m in members :: RepeatsKey(m.value)
    case _ => false
  }

  /** The keys of every object at any depth ascend. */
  predicate Canonical(v: Json) {
    match v
    case Array(items) => forall item | item in items :: Canonical(item)
    case Object(members) => Ascending(members) && forall m | m in members :: Canonical(m.value)
    case _ => true
  }

  /** The decoder: a single object, no repeated key, and the text its own compact form. */
  function DecodeCanonical(payload: seq<byte>): Option<Json> {
    match Parse(payload)
    case None => None
    case Some(v) =>
      if v.Object? && !RepeatsKey(v) && Print(Arrange(v)) == payload then Some(v) else None
  }

  // ---------- sorting ----------

  lemma SortedStays(members: seq<Member>)
    requires Ascending(members)
    ensures SortMembers(members) == members
    decreases |members|
  {
    if members != [] {
      var rest := members[1..];
      assert Ascending(rest) by { assert forall i :: 0 <= i < |rest| ==> rest[i] == members[i + 1]; }
      SortedStays(rest);
      assert members == [members[0]] + rest;
      if rest != [] {
        KeysComparable(members[0].key, members[1].key);
      }
    }
  }

  /** No key is followed by a smaller one. */
  predicate Unbroken(members: seq<Member>) {
    forall i :: 0 < i < |members| ==> !KeyLess(members[i].key, members[i - 1].key)
  }

  lemma {:induction false} InsertUnbroken(m: Member, sorted: seq<Member>)
    requires Unbroken(sorted)
    ensures Unbroken(InsertMember(m, sorted))
    ensures sorted != [] ==> InsertMember(m, sorted)[0] in {m, sorted[0]}
    decreases |sorted|
  {
    if sorted != [] && KeyLess(sorted[0].key, m.key) {
      var rest := sorted[1..];
      assert Unbroken(rest) by { assert forall i :: 0 <= i < |rest| ==> rest[i] == sorted[i + 1]; }
      InsertUnbroken(m, rest);
      var r := InsertMember(m, rest);
      KeysComparable(sorted[0].key, m.key);
      assert rest != [] ==> rest[0] == sorted[1];
      assert !KeyLess(r[0].key, sorted[0].key);
      Prepended(sorted[0], r);
    } else if sorted != [] {
      Prepended(m, sorted);
    }
  }

  lemma Prepended(m: Member, members: seq<Member>)
    requires Unbroken(members) && (members != [] ==> !KeyLess(members[0].key, m.key))
    ensures Unbroken([m] + members)
  {
    var r := [m] + members;
    assert forall i :: 0 < i < |r| ==> r[i] == members[i - 1];
  }

  lemma {:induction false} SortUnbroken(members: seq<Member>)
    ensures Unbroken(SortMembers(members))
    decreases |members|
  {
    if members != [] {
      SortUnbroken(members[1..]);
      InsertUnbroken(members[0], SortMembers(members[1..]));
    }
  }

  lemma {:induction false} UnbrokenAscends(members: seq<Member>, i: nat, j: nat)
    requires Unbroken(members) && KeysDistinct(members) && i < j < |members|
    ensures KeyLess(members[i].key, members[j].key)
    decreases j
  {
    KeysComparable(members[j - 1].key, members[j].key);
    if i < j - 1 {
      UnbrokenAscends(members, i, j - 1);
      KeysTransitive(members[i].key, members[j - 1].key, members[j].key);
    }
  }

  lemma AscendingDistinct(members: seq<Member>)
    requires Ascending(members)
    ensures KeysDistinct(members)
  {
    forall i, j | 0 <= i < j < |members|
      ensures members[i].key != members[j].key
    {
      KeysComparable(members[i].key, members[j].key);
    }
  }

  // ---------- arranged values ----------

  /** A canonical value is arranged already, and repeats no key. */
  lemma {:induction false} CanonicalArranged(v: Json)
    requires Canonical(v)
    ensures Arrange(v) == v && !RepeatsKey(v)
    decreases v, 1
  {
    match v {
      case Array(items) =>
        ItemsArranged(items);
      case Object(members) =>
        MembersArranged(members);
        SortedStays(members);
        AscendingDistinct(members);
      case _ =>
    }
  }

  lemma {:induction false} ItemsArranged(items: seq<Json>)
    requires forall item | item in items :: Canonical(item)
    ensures ArrangeItems(items) == items && forall item | item in items :: !RepeatsKey(item)
    decreases items, 0
  {
    if items != [] {
      CanonicalArranged(items[0]);
      ItemsArranged(items[1..]);
      assert items == [items[0]] + items[1..];
    }
  }

  lemma {:induction false} MembersArranged(members: seq<Member>)
    requires forall m | m in members :: Canonical(m.value)
    ensures ArrangeMembers(members) == members && forall m | m in members :: !RepeatsKey(m.value)
    decreases members, 0
  {
    if members != [] {
      CanonicalArranged(members[0].value);
      MembersArranged(members[1..]);
      assert members == [members[0]] + members[1..];
    }
  }

  /** Without a repeated key only a canonical value stays as it is when its keys are sorted. */
  lemma {:induction false} ArrangedCanonical(v: Json)
    requires Arrange(v) == v && !RepeatsKey(v)
    ensures Canonical(v)
    decreases v, 1
  {
    match v {
      case Array(items) => ArrangedItems(items);
      case Object(members) =>
        var inner := ArrangeMembers(members);
        SortUnbroken(inner);
        forall i, j | 0 <= i < j < |members|
          ensures KeyLess(members[i].key, members[j].key)
        {
          UnbrokenAscends(members, i, j);
        }
        assert Ascending(inner);
        SortedStays(inner);
        ArrangedMembers(members);
      case _ =>
    }
  }

  lemma {:induction false} ArrangedItems(items: seq<Json>)
    requires ArrangeItems(items) == items && forall item | item in items :: !RepeatsKey(item)
    ensures forall item | item in items :: Canonical(item)
    decreases items, 0
  {
    if items != [] {
      assert items == [items[0]] + items[1..];
      assert ArrangeItems(items)[1..] == ArrangeItems(items[1..]);
      ArrangedCanonical(items[0]);
      ArrangedItems(items[1..]);
    }
  }

  lemma {:induction false} ArrangedMembers(members: seq<Member>)
    requires ArrangeMembers(members) == members && forall m | m in members :: !RepeatsKey(m.value)
    ensures forall m | m in members :: Canonical(m.value)
    decreases members, 0
  {
    if members != [] {
      assert members == [members[0]] + members[1..];
      assert ArrangeMembers(members)[1..] == ArrangeMembers(members[1..]);
      assert ArrangeMembers(members)[0] == members[0];
      ArrangedCanonical(members[0].value);
      ArrangedMembers(members[1..]);
    }
  }

  /** A payload is accepted as a value exactly if that is a canonical object and the payload its compact text. */
  lemma DecodedIffCanonical(payload: seq<byte>, v: Json)
    ensures DecodeCanonical(payload) == Some(v) <==> v.Object? && Canonical(v) && payload == Print(v)
  {
    if v.Object? && Canonical(v) && payload == Print(v) {
      ParseRoundTrip(v);
      CanonicalArranged(v);
    }
    if DecodeCanonical(payload) == Some(v) {
      ParseRoundTrip(Arrange(v));
      ArrangedCanonical(v);
    }
  }

  /** A log's one observation, decoded. */
  function Extract(f: Format, log: seq<byte>): Option<Json> {
    match ReadSinglePayload(f, log)
    case Err(_) => None
    case Ok(payload) => DecodeCanonical(payload)
  }

  /** What a writer wraps into a log is what comes out of it. */
  lemma ObservationRoundTrip(
    f: Format, v: Json, before: seq<seq<byte>>, pieces: seq<Piece>, after: seq<seq<byte>>, tail: seq<byte>)
    requires GoodFormat(f) && v.Object? && Canonical(v) && |Print(v)| <= f.maxPayload
    requires pieces != [] && pieces[0].text != [] && pieces[|pieces| - 1].text != []
    requires Joined(pieces) == Print(v) && PiecesEnd(pieces, Flatten(after) + tail)
    requires forall l :: l in before + after ==> IsNoise(f, l)
    requires IsTail(f, tail)
    requires f.maxTotal.Some? ==> |LogOf(f, before, pieces, after, tail)| <= f.maxTotal.value
    ensures Extract(f, LogOf(f, before, pieces, after, tail)) == Some(v)
  {
    hide DecodeCanonical, ReadSinglePayload, Print, Canonical, IsNoise, GoodFormat, IsTail, Joined, PiecesEnd;
    WrapRoundTrip(f, v, before, pieces, after, tail);
    DecodedIffCanonical(Print(v), v);
  }
}
