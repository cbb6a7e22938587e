/**
Compact JSON text with ASCII escapes (RFC 8259, sections 4, 5 and 7) and the
scanner that decides whether a byte sequence already holds a whole object.
*/
module JsonText {

  newtype byte = b: int | 0 <= b < 256

  const QUOTE: byte := 34
  const COMMA: byte := 44
  const COLON: byte := 58
  const OPEN_BRACKET: byte := 91
  const BACKSLASH: byte := 92
  const CLOSE_BRACKET: byte := 93
  const OPEN_BRACE: byte := 123
  const CLOSE_BRACE: byte := 125

  // ---------- values and their compact text ----------

  /** A character; surrogates are not characters of their own. */
  type CodePoint = c: int | 0 <= c <= 0x10FFFF && !(0xD800 <= c < 0xE000)

  /** Digits, signs, a point and an exponent mark: every JSON number is such a text. */
  predicate IsNumberByte(b: byte) {
    48 <= b <= 57 || b == 43 || b == 45 || b == 46 || b == 69 || b == 101
  }

  type NumberText = t: seq<byte> | t != [] && forall b :: b in t ==> IsNumberByte(b) witness [48]

  datatype Json =
    | Null
    | Bool(value: bool)
    | Number(text: NumberText)
    | Text(characters: seq<CodePoint>)
    | Array(items: seq<Json>)
    | Object(members: seq<Member>)

  datatype Member = Member(key: seq<CodePoint>, value: Json)

  function HexDigit(n: int): byte
    requires 0 <= n < 16
  {
    if n < 10 then (48 + n) as byte else (87 + n) as byte
  }

  /** The six bytes of a \u escape. */
  function UnicodeEscape(unit: int): seq<byte>
    requires 0 <= unit < 0x10000
  {
    [BACKSLASH, 117, HexDigit(unit / 4096), HexDigit(unit / 256 % 16),
     HexDigit(unit / 16 % 16), HexDigit(unit % 16)]
  }

  /** One character, escaped unless it is printable ASCII other than the quote and the backslash. */
  function Escape(c: CodePoint): seq<byte> {
    if c == 34 then [BACKSLASH, QUOTE]
    else if c == 92 then [BACKSLASH, BACKSLASH]
    else if c == 10 then [BACKSLASH, 110]
    else if c == 13 then [BACKSLASH, 114]
    else if c == 9 then [BACKSLASH, 116]
    else if c == 12 then [BACKSLASH, 102]
    else if c == 8 then [BACKSLASH, 98]
    else if 32 <= c <= 126 then [c as byte]
    else if c < 0x10000 then UnicodeEscape(c)
    else UnicodeEscape(0xD800 + (c - 0x10000) / 1024) + UnicodeEscape(0xDC00 + (c - 0x10000) % 1024)
  }

  function EscapeAll(characters: seq<CodePoint>): seq<byte> {
    if characters == [] then [] else Escape(characters[0]) + EscapeAll(characters[1..])
  }

  function PrintText(characters: seq<CodePoint>): seq<byte> {
    [QUOTE] + EscapeAll(characters) + [QUOTE]
  }

  function Print(v: Json): seq<byte>
    decreases v, 1
  {
    match v
    case Null => [110, 117, 108, 108]
    case Bool(b) => if b then [116, 114, 117, 101] else [102, 97, 108, 115, 101]
    case Number(text) => text
    case Text(characters) => PrintText(characters)
    case Array(items) => [OPEN_BRACKET] + PrintItems(items) + [CLOSE_BRACKET]
    case Object(members) => [OPEN_BRACE] + PrintMembers(members) + [CLOSE_BRACE]
  }

  function PrintItems(items: seq<Json>): seq<byte>
    decreases items, 0
  {
    if items == [] then []
    else if |items| == 1 then Print(items[0])
    else Print(items[0]) + [COMMA] + PrintItems(items[1..])
  }

  function PrintMember(m: Member): seq<byte>
    decreases m, 2
  {
    PrintText(m.key) + [COLON] + Print(m.value)
  }

  function PrintMembers(members: seq<Member>): seq<byte>
    decreases members, 0
  {
    if members == [] then []
    else if |members| == 1 then PrintMember(members[0])
    else PrintMember(members[0]) + [COMMA] + PrintMembers(members[1..])
  }

  // ---------- the scanner ----------

  datatype Scan = Scan(depth: int, inString: bool, escaped: bool)

  datatype Progress = Pending(scan: Scan) | Complete

  function Outside(depth: int): Scan { Scan(depth, false, false) }
  function Inside(depth: int): Scan { Scan(depth, true, false) }

  function ScanByte(s: Scan, b: byte): Progress {
    if s.inString then
      if s.escaped then Pending(s.(escaped := false))
      else if b == BACKSLASH then Pending(s.(escaped := true))
      else if b == QUOTE then Pending(s.(inString := false))
      else Pending(s)
    else if b == QUOTE then Pending(s.(inString := true))
    else if b == OPEN_BRACE || b == OPEN_BRACKET then Pending(s.(depth := s.depth + 1))
    else if b == CLOSE_BRACE || b == CLOSE_BRACKET then
      if s.depth - 1 <= 0 then Complete else Pending(s.(depth := s.depth - 1))
    else Pending(s)
  }

  function ScanAll(s: Scan, bytes: seq<byte>): Progress
    decreases |bytes|
  {
    if bytes == [] then Pending(s)
    else
      match ScanByte(s, bytes[0])
      case Complete => Complete
      case Pending(next) => ScanAll(next, bytes[1..])
  }

  /** Whether a payload needs no further line; anything that does not open an object never does. */
  predicate IsComplete(payload: seq<byte>) {
    payload == [] || payload[0] != OPEN_BRACE || ScanAll(Outside(0), payload) == Complete
  }

  /** The scanner's loop over depth, string and escape flags. */
  method JsonObjectIsComplete(payload: seq<byte>) returns (complete: bool)
    ensures complete == IsComplete(payload)
  {
    if payload == [] || payload[0] != OPEN_BRACE {
      return true;
    }
    var depth, inString, escaped := 0, false, false;
    var i := 0;
    while i < |payload|
      invariant 0 <= i <= |payload|
      invariant ScanAll(Scan(depth, inString, escaped), payload[i..]) == ScanAll(Outside(0), payload)
    {
      var b := payload[i];
      assert payload[i..][0] == b && payload[i..][1..] == payload[i + 1..];
      i := i + 1;
      if inString {
        if escaped {
          escaped := false;
        } else if b == BACKSLASH {
          escaped := true;
        } else if b == QUOTE {
          inString := false;
        }
      } else if b == QUOTE {
        inString := true;
      } else if b == OPEN_BRACE || b == OPEN_BRACKET {
        depth := depth + 1;
      } else if b == CLOSE_BRACE || b == CLOSE_BRACKET {
        depth := depth - 1;
        if depth <= 0 {
          return true;
        }
      }
    }
    return false;
  }

  // ---------- scanning concatenations ----------

  lemma {:induction false} ScanConcat(s: Scan, front: seq<byte>, back: seq<byte>)
    ensures ScanAll(s, front + back) ==
      match ScanAll(s, front)
      case Complete => Complete
      case Pending(t) => ScanAll(t, back)
    decreases |front|
  {
    if front == [] {
      assert front + back == back;
    } else {
      assert (front + back)[0] == front[0] && (front + back)[1..] == front[1..] + back;
      match ScanByte(s, front[0]) {
        case Complete =>
        case Pending(next) => ScanConcat(next, front[1..], back);
      }
    }
  }

  /** A text over which the scanner stays pending and comes back to where it started. */
  predicate Balanced(bytes: seq<byte>, s: Scan) {
    ScanAll(s, bytes) == Pending(s)
  }

  lemma BalancedConcat(front: seq<byte>, back: seq<byte>, s: Scan)
    requires Balanced(front, s) && Balanced(back, s)
    ensures Balanced(front + back, s)
  {
    ScanConcat(s, front, back);
  }

  lemma BalancedByte(b: byte, s: Scan)
    requires ScanByte(s, b) == Pending(s)
    ensures Balanced([b], s)
  {
    assert [b][1..] == [];
  }

  lemma {:induction false} PlainBytesBalanced(bytes: seq<byte>, s: Scan)
    requires forall b :: b in bytes ==> ScanByte(s, b) == Pending(s)
    ensures Balanced(bytes, s)
    decreases |bytes|
  {
    if bytes != [] {
      PlainBytesBalanced(bytes[1..], s);
    }
  }

  // ---------- printed values are balanced ----------

  lemma EscapeBalanced(c: CodePoint, depth: int)
    ensures Balanced(Escape(c), Inside(depth))
  {
    var s := Inside(depth);
    if c in {34, 92, 10, 13, 9, 12, 8} {
      EscapePairBalanced(Escape(c)[1], depth);
    } else if 32 <= c <= 126 {
      BalancedByte(c as byte, s);
    } else if c < 0x10000 {
      UnicodeEscapeBalanced(c, depth);
    } else {
      var high, low := 0xD800 + (c - 0x10000) / 1024, 0xDC00 + (c - 0x10000) % 1024;
      UnicodeEscapeBalanced(high, depth);
      UnicodeEscapeBalanced(low, depth);
      BalancedConcat(UnicodeEscape(high), UnicodeEscape(low), s);
    }
  }

  lemma EscapePairBalanced(b: byte, depth: int)
    ensures Balanced([BACKSLASH, b], Inside(depth))
  {
    assert [BACKSLASH, b][1..] == [b] && [b][1..] == [];
    assert ScanAll(Scan(depth, true, true), [b]) == Pending(Inside(depth));
  }

  lemma UnicodeEscapeBalanced(unit: int, depth: int)
    requires 0 <= unit < 0x10000
    ensures Balanced(UnicodeEscape(unit), Inside(depth))
  {
    var s := Inside(depth);
    var digits := UnicodeEscape(unit)[2..];
    assert UnicodeEscape(unit) == [BACKSLASH, 117] + digits;
    EscapePairBalanced(117, depth);
    PlainBytesBalanced(digits, s);
    BalancedConcat([BACKSLASH, 117], digits, s);
  }

  lemma {:induction false} EscapeAllBalanced(characters: seq<CodePoint>, depth: int)
    ensures Balanced(EscapeAll(characters), Inside(depth))
    decreases |characters|
  {
    if characters != [] {
      EscapeBalanced(characters[0], depth);
      EscapeAllBalanced(characters[1..], depth);
      BalancedConcat(Escape(characters[0]), EscapeAll(characters[1..]), Inside(depth));
    }
  }

  lemma TextBalanced(characters: seq<CodePoint>, depth: int)
    ensures Balanced(PrintText(characters), Outside(depth))
  {
    var body := EscapeAll(characters);
    EscapeAllBalanced(characters, depth);
    ScanConcat(Inside(depth), body, [QUOTE]);
    assert [QUOTE][1..] == [];
    assert ScanAll(Inside(depth), body + [QUOTE]) == Pending(Outside(depth));
    assert PrintText(characters) == [QUOTE] + (body + [QUOTE]);
    assert ([QUOTE] + (body + [QUOTE]))[1..] == body + [QUOTE];
  }

  /** Bracketing a text that is balanced one level deeper is balanced again. */
  lemma EnclosedBalanced(open: byte, body: seq<byte>, close: byte, depth: int)
    requires depth >= 1
    requires open in {OPEN_BRACE, OPEN_BRACKET} && close in {CLOSE_BRACE, CLOSE_BRACKET}
    requires Balanced(body, Outside(depth + 1))
    ensures Balanced([open] + body + [close], Outside(depth))
  {
    ScanConcat(Outside(depth + 1), body, [close]);
    assert [close][1..] == [];
    assert ([open] + body + [close])[1..] == body + [close];
  }

  lemma {:induction false} PrintBalanced(v: Json, depth: int)
    requires depth >= 1
    ensures Balanced(Print(v), Outside(depth))
    decreases v, 1
  {
    match v {
      case Null => PlainBytesBalanced(Print(v), Outside(depth));
      case Bool(_) => PlainBytesBalanced(Print(v), Outside(depth));
      case Number(text) => PlainBytesBalanced(text, Outside(depth));
      case Text(characters) => TextBalanced(characters, depth);
      case Array(items) =>
        ItemsBalanced(items, depth + 1);
        EnclosedBalanced(OPEN_BRACKET, PrintItems(items), CLOSE_BRACKET, depth);
      case Object(members) =>
        MembersBalanced(members, depth + 1);
        EnclosedBalanced(OPEN_BRACE, PrintMembers(members), CLOSE_BRACE, depth);
    }
  }

  lemma SeparatedBalanced(front: seq<byte>, separator: byte, back: seq<byte>, depth: int)
    requires separator == COMMA || separator == COLON
    requires Balanced(front, Outside(depth)) && Balanced(back, Outside(depth))
    ensures Balanced(front + [separator] + back, Outside(depth))
  {
    BalancedByte(separator, Outside(depth));
    BalancedConcat(front, [separator], Outside(depth));
    BalancedConcat(front + [separator], back, Outside(depth));
  }

  lemma {:induction false} ItemsBalanced(items: seq<Json>, depth: int)
    requires depth >= 1
    ensures Balanced(PrintItems(items), Outside(depth))
    decreases items, 0
  {
    if items != [] {
      PrintBalanced(items[0], depth);
      if |items| > 1 {
        ItemsBalanced(items[1..], depth);
        SeparatedBalanced(Print(items[0]), COMMA, PrintItems(items[1..]), depth);
      }
    }
  }

  lemma {:induction false} MembersBalanced(members: seq<Member>, depth: int)
    requires depth >= 1
    ensures Balanced(PrintMembers(members), Outside(depth))
    decreases members, 0
  {
    if members != [] {
      TextBalanced(members[0].key, depth);
      PrintBalanced(members[0].value, depth);
      SeparatedBalanced(PrintText(members[0].key), COLON, Print(members[0].value), depth);
      if |members| > 1 {
        MembersBalanced(members[1..], depth);
        SeparatedBalanced(PrintMember(members[0]), COMMA, PrintMembers(members[1..]), depth);
      }
    }
  }

  // ---------- the completeness theorem ----------

  lemma PrefixPending(s: Scan, bytes: seq<byte>, n: nat)
    requires n <= |bytes| && ScanAll(s, bytes).Pending?
    ensures ScanAll(s, bytes[..n]).Pending?
  {
    assert bytes == bytes[..n] + bytes[n..];
    ScanConcat(s, bytes[..n], bytes[n..]);
  }

  /**
  For every object, the scanner accepts its compact text and no proper non-empty
  prefix of it, whatever its nesting and whatever its strings contain.
  */
  lemma CompleteExactlyAtTheEnd(v: Json, n: nat)
    requires v.Object? && 0 < n <= |Print(v)|
    ensures IsComplete(Print(v)[..n]) <==> n == |Print(v)|
  {
    var body := PrintMembers(v.members);
    var text := Print(v);
    MembersBalanced(v.members, 1);
    var front := [OPEN_BRACE] + body;
    assert front[1..] == body;
    assert ScanAll(Outside(0), front) == ScanAll(Outside(1), body) == Pending(Outside(1));
    ScanConcat(Outside(0), front, [CLOSE_BRACE]);
    assert text == front + [CLOSE_BRACE];
    assert [CLOSE_BRACE][1..] == [];
    if n == |text| {
      assert text[..n] == text;
    } else {
      assert text[..n] == front[..n];
      PrefixPending(Outside(0), front, n);
    }
  }

  // ---------- printed bytes ----------

  predicate IsPrintable(bytes: seq<byte>) {
    forall i :: 0 <= i < |bytes| ==> 32 <= bytes[i] <= 126
  }

  lemma {:induction false} EscapeAllPrintable(characters: seq<CodePoint>)
    ensures IsPrintable(EscapeAll(characters))
    decreases |characters|
  {
    if characters != [] {
      EscapeAllPrintable(characters[1..]);
      assert IsPrintable(Escape(characters[0]));
    }
  }

  /** Compact text is printable ASCII, so it can be cut into lines anywhere. */
  lemma {:induction false} PrintPrintable(v: Json)
    ensures IsPrintable(Print(v))
    decreases v, 1
  {
    match v {
      case Null =>
      case Bool(_) =>
      case Number(_) =>
      case Text(characters) => EscapeAllPrintable(characters);
      case Array(items) => ItemsPrintable(items);
      case Object(members) => MembersPrintable(members);
    }
  }

  lemma {:induction false} ItemsPrintable(items: seq<Json>)
    ensures IsPrintable(PrintItems(items))
    decreases items, 0
  {
    if items != [] {
      PrintPrintable(items[0]);
      ItemsPrintable(items[1..]);
    }
  }

  lemma {:induction false} MembersPrintable(members: seq<Member>)
    ensures IsPrintable(PrintMembers(members))
    decreases members, 0
  {
    if members != [] {
      EscapeAllPrintable(members[0].key);
      PrintPrintable(members[0].value);
      MembersPrintable(members[1..]);
      hide EscapeAll, Print;
      assert IsPrintable(PrintMember(members[0]));
      hide PrintMember;
    }
  }
}
