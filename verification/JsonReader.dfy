/**
Reading compact JSON text back: the text determines the value. The reader looks at bytes
alone; what it does not find in the form the printer uses, it refuses.
*/
module JsonReader {
  import opened JsonText
  import opened Options

  /** A value and the bytes behind it, or a refusal. */
  datatype Read<+T> = Got(value: T, rest: seq<byte>) | Refused

  const NULL_TEXT: seq<byte> := [110, 117, 108, 108]
  const TRUE_TEXT: seq<byte> := [116, 114, 117, 101]
  const FALSE_TEXT: seq<byte> := [102, 97, 108, 115, 101]

  // ---------- characters ----------

  function HexValue(b: byte): Option<int> {
    if 48 <= b <= 57 then Some(b as int - 48)
    else if 97 <= b <= 102 then Some(b as int - 87)
    else None
  }

  /** The sixteen bits of four hexadecimal digits. */
  function ReadUnit(bytes: seq<byte>): (r: Read<int>)
    ensures r.Got? ==> |r.rest| + 4 == |bytes| && 0 <= r.value < 0x10000
  {
    if |bytes| < 4 then Refused
    else
      var a, b, c, d := HexValue(bytes[0]), HexValue(bytes[1]), HexValue(bytes[2]), HexValue(bytes[3]);
      if a.None? || b.None? || c.None? || d.None? then Refused
      else Got(4096 * a.value + 256 * b.value + 16 * c.value + d.value, bytes[4..])
  }

  /** What follows a backslash and a u: one unit, or the two of a pair. */
  function ReadUnicode(bytes: seq<byte>): (r: Read<CodePoint>)
    ensures r.Got? ==> |r.rest| < |bytes|
  {
    match ReadUnit(bytes)
    case Refused => Refused
    case Got(high, rest) =>
      if 0xD800 <= high < 0xDC00 then
        if |rest| < 2 || rest[0] != BACKSLASH || rest[1] != 117 then Refused
        else
          match ReadUnit(rest[2..])
          case Refused => Refused
          case Got(low, behind) =>
            if 0xDC00 <= low < 0xE000 then Got(0x10000 + 1024 * (high - 0xD800) + (low - 0xDC00), behind) else Refused
      else if 0xDC00 <= high < 0xE000 then Refused
      else Got(high, rest)
  }

  /** The character a short escape stands for. */
  function ShortEscape(b: byte): Option<CodePoint> {
    if b == 34 then Some(34)
    else if b == 92 then Some(92)
    else if b == 110 then Some(10)
    else if b == 114 then Some(13)
    else if b == 116 then Some(9)
    else if b == 102 then Some(12)
    else if b == 98 then Some(8)
    else None
  }

  /** One character of a string that has not ended. */
  function ReadCharacter(bytes: seq<byte>): (r: Read<CodePoint>)
    ensures r.Got? ==> |r.rest| < |bytes|
  {
    if bytes == [] then Refused
    else if bytes[0] == BACKSLASH then
      if |bytes| < 2 then Refused
      else if bytes[1] == 117 then ReadUnicode(bytes[2..])
      else
        match ShortEscape(bytes[1])
        case None => Refused
        case Some(c) => Got(c, bytes[2..])
    else if 32 <= bytes[0] <= 126 && bytes[0] != QUOTE then Got(bytes[0] as int, bytes[1..])
    else Refused
  }

  /** The characters up to the closing quote. */
  function ReadCharacters(bytes: seq<byte>): (r: Read<seq<CodePoint>>)
    ensures r.Got? ==> |r.rest| < |bytes|
    decreases |bytes|
  {
    if bytes == [] then Refused
    else if bytes[0] == QUOTE then Got([], bytes[1..])
    else
      match ReadCharacter(bytes)
      case Refused => Refused
      case Got(c, rest) =>
        match ReadCharacters(rest)
        case Refused => Refused
        case Got(more, behind) => Got([c] + more, behind)
  }

  function ReadText(bytes: seq<byte>): (r: Read<seq<CodePoint>>)
    ensures r.Got? ==> |r.rest| < |bytes|
  {
    if bytes == [] || bytes[0] != QUOTE then Refused else ReadCharacters(bytes[1..])
  }

  // ---------- values ----------

  /** How many bytes from the start can belong to a number. */
  function NumberLength(bytes: seq<byte>): (n: nat)
    ensures n <= |bytes|
    ensures forall i :: 0 <= i < n ==> IsNumberByte(bytes[i])
    ensures n < |bytes| ==> !IsNumberByte(bytes[n])
    decreases |bytes|
  {
    if bytes == [] || !IsNumberByte(bytes[0]) then 0 else 1 + NumberLength(bytes[1..])
  }

  function ReadNumber(bytes: seq<byte>): (r: Read<NumberText>)
    ensures r.Got? ==> |r.rest| < |bytes|
  {
    var n := NumberLength(bytes);
    if n == 0 then Refused
    else
      var text: NumberText := bytes[..n];
      Got(text, bytes[n..])
  }

  function Expect(text: seq<byte>, bytes: seq<byte>, v: Json): (r: Read<Json>)
    ensures r.Got? && text != [] ==> |r.rest| < |bytes|
  {
    if text <= bytes then Got(v, bytes[|text|..]) else Refused
  }

  function ReadValue(bytes: seq<byte>): (r: Read<Json>)
    ensures r.Got? ==> |r.rest| < |bytes|
    decreases |bytes|, 0
  {
    if bytes == [] then Refused
    else if bytes[0] == QUOTE then
      match ReadText(bytes)
      case Refused => Refused
      case Got(characters, rest) => Got(Text(characters), rest)
    else if bytes[0] == OPEN_BRACKET then
      if |bytes| >= 2 && bytes[1] == CLOSE_BRACKET then Got(Array([]), bytes[2..])
      else
        match ReadItems(bytes[1..])
        case Refused => Refused
        case Got(items, rest) => Got(Array(items), rest)
    else if bytes[0] == OPEN_BRACE then
      if |bytes| >= 2 && bytes[1] == CLOSE_BRACE then Got(Object([]), bytes[2..])
      else
        match ReadMembers(bytes[1..])
        case Refused => Refused
        case Got(members, rest) => Got(Object(members), rest)
    else if bytes[0] == 110 then Expect(NULL_TEXT, bytes, Null)
    else if bytes[0] == 116 then Expect(TRUE_TEXT, bytes, Bool(true))
    else if bytes[0] == 102 then Expect(FALSE_TEXT, bytes, Bool(false))
    else
      match ReadNumber(bytes)
      case Refused => Refused
      case Got(text, rest) => Got(Number(text), rest)
  }

  /** One or more items, and the bracket that ends them. */
  function ReadItems(bytes: seq<byte>): (r: Read<seq<Json>>)
    ensures r.Got? ==> |r.rest| < |bytes|
    decreases |bytes|, 1
  {
    match ReadValue(bytes)
    case Refused => Refused
    case Got(item, rest) =>
      if rest == [] then Refused
      else if rest[0] == CLOSE_BRACKET then Got([item], rest[1..])
      else if rest[0] == COMMA then
        match ReadItems(rest[1..])
        case Refused => Refused
        case Got(more, behind) => Got([item] + more, behind)
      else Refused
  }

  function ReadMember(bytes: seq<byte>): (r: Read<Member>)
    ensures r.Got? ==> |r.rest| < |bytes|
    decreases |bytes|, 1
  {
    match ReadText(bytes)
    case Refused => Refused
    case Got(key, rest) =>
      if rest == [] || rest[0] != COLON then Refused
      else
        match ReadValue(rest[1..])
        case Refused => Refused
        case Got(value, behind) => Got(Member(key, value), behind)
  }

  /** One or more members, and the brace that ends them. */
  function ReadMembers(bytes: seq<byte>): (r: Read<seq<Member>>)
    ensures r.Got? ==> |r.rest| < |bytes|
    decreases |bytes|, 2
  {
    match ReadMember(bytes)
    case Refused => Refused
    case Got(member, rest) =>
      if rest == [] then Refused
      else if rest[0] == CLOSE_BRACE then Got([member], rest[1..])
      else if rest[0] == COMMA then
        match ReadMembers(rest[1..])
        case Refused => Refused
        case Got(more, behind) => Got([member] + more, behind)
      else Refused
  }

  /** The value of a whole text. */
  function Parse(bytes: seq<byte>): Option<Json> {
    match ReadValue(bytes)
    case Refused => None
    case Got(v, rest) => if rest == [] then Some(v) else None
  }

  // ---------- characters come back ----------

  lemma HexComesBack(n: int)
    requires 0 <= n < 16
    ensures HexValue(HexDigit(n)) == Some(n)
  {
  }

  lemma HexParts(unit: int)
    requires 0 <= unit < 0x10000
    ensures 0 <= unit / 4096 < 16
    ensures 4096 * (unit / 4096) + 256 * (unit / 256 % 16) + 16 * (unit / 16 % 16) + unit % 16 == unit
  {
    assert unit / 256 == 16 * (unit / 4096) + unit / 256 % 16;
    assert unit / 16 == 16 * (unit / 256) + unit / 16 % 16;
  }

  lemma UnitComesBack(unit: int, rest: seq<byte>)
    requires 0 <= unit < 0x10000
    ensures ReadUnit(UnicodeEscape(unit)[2..] + rest) == Got(unit, rest)
  {
    HexParts(unit);
    HexComesBack(unit / 4096);
    HexComesBack(unit / 256 % 16);
    HexComesBack(unit / 16 % 16);
    HexComesBack(unit % 16);
    hide HexDigit, HexValue;
    assert (UnicodeEscape(unit)[2..] + rest)[4..] == rest;
  }

  lemma UnicodeStarts(unit: int, rest: seq<byte>)
    requires 0 <= unit < 0x10000
    ensures |UnicodeEscape(unit)| == 6 && UnicodeEscape(unit)[0] == BACKSLASH
    ensures var text := UnicodeEscape(unit) + rest;
      |text| >= 6 && text[0] == BACKSLASH && text[1] == 117 && text[2..] == UnicodeEscape(unit)[2..] + rest
  {
  }

  lemma UnicodeStep(text: seq<byte>, c: CodePoint, rest: seq<byte>)
    requires |text| >= 2 && text[0] == BACKSLASH && text[1] == 117 && ReadUnicode(text[2..]) == Got(c, rest)
    ensures ReadCharacter(text) == Got(c, rest)
  {
    hide ReadUnicode;
  }

  lemma PairStep(bytes: seq<byte>, high: int, low: int, behind: seq<byte>, rest: seq<byte>)
    requires 0xD800 <= high < 0xDC00 <= low < 0xE000
    requires ReadUnit(bytes) == Got(high, behind)
    requires |behind| >= 2 && behind[0] == BACKSLASH && behind[1] == 117 && ReadUnit(behind[2..]) == Got(low, rest)
    ensures ReadUnicode(bytes) == Got(0x10000 + 1024 * (high - 0xD800) + (low - 0xDC00), rest)
  {
    hide ReadUnit;
  }

  /** A character outside the basic plane is written as a pair of units. */
  lemma PairComesBack(c: CodePoint, rest: seq<byte>)
    requires c >= 0x10000
    ensures ReadCharacter(Escape(c) + rest) == Got(c, rest)
    ensures Escape(c) != [] && Escape(c)[0] == BACKSLASH
  {
    var high, low := 0xD800 + (c - 0x10000) / 1024, 0xDC00 + (c - 0x10000) % 1024;
    PairWritten(c, high, low);
    hide UnicodeEscape, ReadUnit, ReadUnicode, ReadCharacter, Escape;
    var behind := UnicodeEscape(low) + rest;
    UnitComesBack(high, behind);
    UnitComesBack(low, rest);
    UnicodeStarts(high, behind);
    UnicodeStarts(low, rest);
    PairStep(UnicodeEscape(high)[2..] + behind, high, low, behind, rest);
    assert Escape(c) + rest == UnicodeEscape(high) + behind;
    UnicodeStep(Escape(c) + rest, c, rest);
  }

  lemma PairWritten(c: CodePoint, high: int, low: int)
    requires c >= 0x10000 && high == 0xD800 + (c - 0x10000) / 1024 && low == 0xDC00 + (c - 0x10000) % 1024
    ensures 0xD800 <= high < 0xDC00 <= low < 0xE000
    ensures 0x10000 + 1024 * (high - 0xD800) + (low - 0xDC00) == c
    ensures Escape(c) == UnicodeEscape(high) + UnicodeEscape(low)
  {
    hide UnicodeEscape;
  }

  lemma BasicComesBack(c: CodePoint, rest: seq<byte>)
    requires c < 0x10000 && Escape(c) == UnicodeEscape(c)
    ensures ReadCharacter(Escape(c) + rest) == Got(c, rest)
  {
    UnitComesBack(c, rest);
    UnicodeStarts(c, rest);
    hide UnicodeEscape, ReadUnit, Escape;
  }

  lemma ShortComesBack(b: byte, c: CodePoint, rest: seq<byte>)
    requires ShortEscape(b) == Some(c) && b != 117
    ensures ReadCharacter([BACKSLASH, b] + rest) == Got(c, rest)
  {
    hide ReadUnicode;
    assert ([BACKSLASH, b] + rest)[2..] == rest;
  }

  lemma PlainComesBack(b: byte, rest: seq<byte>)
    requires 32 <= b <= 126 && b != QUOTE && b != BACKSLASH
    ensures ReadCharacter([b] + rest) == Got(b as int, rest)
  {
    hide ReadUnicode;
    assert ([b] + rest)[1..] == rest;
  }

  lemma CharacterComesBack(c: CodePoint, rest: seq<byte>)
    ensures Escape(c) != [] && Escape(c)[0] != QUOTE
    ensures ReadCharacter(Escape(c) + rest) == Got(c, rest)
  {
    hide ReadCharacter, UnicodeEscape;
    if c in {34, 92, 10, 13, 9, 12, 8} {
      ShortComesBack(Escape(c)[1], c, rest);
    } else if 32 <= c <= 126 {
      PlainComesBack(c as byte, rest);
    } else if c < 0x10000 {
      UnicodeStarts(c, rest);
      BasicComesBack(c, rest);
    } else {
      PairComesBack(c, rest);
    }
  }

  lemma CharactersStep(c: CodePoint, text: seq<byte>, behind: seq<byte>, more: seq<CodePoint>, rest: seq<byte>)
    requires text != [] && text[0] != QUOTE && ReadCharacter(text) == Got(c, behind)
    requires ReadCharacters(behind) == Got(more, rest)
    ensures ReadCharacters(text) == Got([c] + more, rest)
  {
    hide ReadCharacter;
  }

  lemma {:induction false} CharactersComeBack(characters: seq<CodePoint>, rest: seq<byte>)
    ensures ReadCharacters(EscapeAll(characters) + ([QUOTE] + rest)) == Got(characters, rest)
    decreases |characters|
  {
    var text := EscapeAll(characters) + ([QUOTE] + rest);
    hide ReadCharacter, Escape;
    if characters == [] {
      assert text == [QUOTE] + rest && text[1..] == rest;
    } else {
      var behind := EscapeAll(characters[1..]) + ([QUOTE] + rest);
      CharacterComesBack(characters[0], behind);
      CharactersComeBack(characters[1..], rest);
      assert text == Escape(characters[0]) + behind;
      hide ReadCharacters, EscapeAll;
      CharactersStep(characters[0], text, behind, characters[1..], rest);
      assert characters == [characters[0]] + characters[1..];
    }
  }

  lemma TextComesBack(characters: seq<CodePoint>, rest: seq<byte>)
    ensures ReadText(PrintText(characters) + rest) == Got(characters, rest)
    ensures PrintText(characters) != [] && PrintText(characters)[0] == QUOTE
  {
    CharactersComeBack(characters, rest);
    hide ReadCharacters, EscapeAll;
    var text := PrintText(characters) + rest;
    assert text[1..] == EscapeAll(characters) + ([QUOTE] + rest);
  }

  // ---------- values come back ----------

  /** What can stand behind a value: nothing, or a byte that does not go on with a number. */
  predicate Ends(rest: seq<byte>) { rest == [] || !IsNumberByte(rest[0]) }

  lemma {:induction false} NumberEnds(text: seq<byte>, rest: seq<byte>)
    requires (forall b :: b in text ==> IsNumberByte(b)) && Ends(rest)
    ensures NumberLength(text + rest) == |text|
    decreases |text|
  {
    if text == [] {
      assert text + rest == rest;
    } else {
      assert (text + rest)[0] == text[0] && (text + rest)[1..] == text[1..] + rest;
      NumberEnds(text[1..], rest);
    }
  }

  lemma NumberComesBack(text: NumberText, rest: seq<byte>)
    requires Ends(rest)
    ensures ReadValue(text + rest) == Got(Number(text), rest)
  {
    NumberEnds(text, rest);
    assert (text + rest)[..|text|] == text && (text + rest)[|text|..] == rest;
    assert IsNumberByte((text + rest)[0]);
    hide ReadItems, ReadMembers, ReadText, NumberLength, Expect;
  }

  lemma LiteralComesBack(v: Json, rest: seq<byte>)
    requires v.Null? || v.Bool?
    ensures ReadValue(Print(v) + rest) == Got(v, rest)
  {
    var text := Print(v);
    assert text <= text + rest && (text + rest)[|text|..] == rest && (text + rest)[0] == text[0];
    hide ReadItems, ReadMembers, ReadText, ReadNumber;
  }

  lemma StringComesBack(characters: seq<CodePoint>, rest: seq<byte>)
    ensures ReadValue(PrintText(characters) + rest) == Got(Text(characters), rest)
  {
    TextComesBack(characters, rest);
    assert (PrintText(characters) + rest)[0] == QUOTE;
    hide ReadItems, ReadMembers, ReadText, ReadNumber, Expect, PrintText;
  }

  lemma ArrayStep(body: seq<byte>, items: seq<Json>, rest: seq<byte>)
    requires body != [] && body[0] != CLOSE_BRACKET && ReadItems(body) == Got(items, rest)
    ensures ReadValue([OPEN_BRACKET] + body) == Got(Array(items), rest)
  {
    var text := [OPEN_BRACKET] + body;
    assert text[1..] == body && text[1] == body[0];
    hide ReadItems, ReadMembers, ReadText, ReadNumber, Expect;
  }

  lemma ObjectStep(body: seq<byte>, members: seq<Member>, rest: seq<byte>)
    requires body != [] && body[0] != CLOSE_BRACE && ReadMembers(body) == Got(members, rest)
    ensures ReadValue([OPEN_BRACE] + body) == Got(Object(members), rest)
  {
    var text := [OPEN_BRACE] + body;
    assert text[1..] == body && text[1] == body[0];
    hide ReadItems, ReadMembers, ReadText, ReadNumber, Expect;
  }

  lemma EmptyComesBack(rest: seq<byte>)
    ensures ReadValue([OPEN_BRACKET, CLOSE_BRACKET] + rest) == Got(Array([]), rest)
    ensures ReadValue([OPEN_BRACE, CLOSE_BRACE] + rest) == Got(Object([]), rest)
  {
    assert ([OPEN_BRACKET, CLOSE_BRACKET] + rest)[2..] == rest && ([OPEN_BRACE, CLOSE_BRACE] + rest)[2..] == rest;
    hide ReadItems, ReadMembers, ReadText, ReadNumber, Expect;
  }

  lemma {:induction false} ValueComesBack(v: Json, rest: seq<byte>)
    requires Ends(rest)
    ensures ReadValue(Print(v) + rest) == Got(v, rest)
    decreases v, 1
  {
    hide ReadValue, ReadItems, ReadMembers, PrintText, PrintItems, PrintMembers;
    match v {
      case Null => LiteralComesBack(v, rest);
      case Bool(_) => LiteralComesBack(v, rest);
      case Number(number) => NumberComesBack(number, rest);
      case Text(characters) => StringComesBack(characters, rest);
      case Array(items) =>
        EmptyComesBack(rest);
        if items == [] {
          PrintNothing();
          assert Print(v) == [OPEN_BRACKET, CLOSE_BRACKET];
        } else {
          var body := PrintItems(items) + ([CLOSE_BRACKET] + rest);
          ItemsComeBack(items, rest);
          PrintItemsStarts(items);
          ArrayStep(body, items, rest);
          assert Print(v) + rest == [OPEN_BRACKET] + body;
        }
      case Object(members) =>
        EmptyComesBack(rest);
        if members == [] {
          PrintNothing();
          assert Print(v) == [OPEN_BRACE, CLOSE_BRACE];
        } else {
          var body := PrintMembers(members) + ([CLOSE_BRACE] + rest);
          MembersComeBack(members, rest);
          PrintMembersStart(members);
          ObjectStep(body, members, rest);
          assert Print(v) + rest == [OPEN_BRACE] + body;
        }
    }
  }

  lemma PrintNothing()
    ensures PrintItems([]) == [] && PrintMembers([]) == []
  {
  }

  lemma PrintStarts(v: Json)
    ensures Print(v) != [] && Print(v)[0] !in {CLOSE_BRACKET, CLOSE_BRACE}
  {
    hide PrintItems, PrintMembers, EscapeAll;
    match v {
      case Number(text) => assert text[0] in text;
      case _ =>
    }
  }

  lemma PrintItemsStarts(items: seq<Json>)
    requires items != []
    ensures PrintItems(items) != [] && PrintItems(items)[0] != CLOSE_BRACKET
  {
    PrintStarts(items[0]);
    hide Print;
  }

  lemma PrintMembersStart(members: seq<Member>)
    requires members != []
    ensures PrintMembers(members) != [] && PrintMembers(members)[0] != CLOSE_BRACE
  {
    hide Print, EscapeAll;
  }

  lemma LastItem(text: seq<byte>, item: Json, behind: seq<byte>, rest: seq<byte>)
    requires ReadValue(text) == Got(item, behind) && behind == [CLOSE_BRACKET] + rest
    ensures ReadItems(text) == Got([item], rest)
  {
    assert behind[1..] == rest;
    hide ReadValue;
  }

  lemma NextItem(text: seq<byte>, item: Json, others: seq<byte>, more: seq<Json>, rest: seq<byte>)
    requires ReadValue(text) == Got(item, [COMMA] + others) && ReadItems(others) == Got(more, rest)
    ensures ReadItems(text) == Got([item] + more, rest)
  {
    assert ([COMMA] + others)[1..] == others;
    hide ReadValue;
  }

  lemma PrintItemsSplits(items: seq<Json>, back: seq<byte>)
    requires items != []
    ensures |items| == 1 ==> PrintItems(items) + back == Print(items[0]) + back
    ensures |items| > 1 ==> PrintItems(items) + back == Print(items[0]) + ([COMMA] + (PrintItems(items[1..]) + back))
  {
    hide Print;
    if |items| > 1 {
      Regrouped(Print(items[0]), [COMMA], PrintItems(items[1..]), back);
    }
  }

  lemma Regrouped(a: seq<byte>, b: seq<byte>, c: seq<byte>, d: seq<byte>)
    ensures a + b + c + d == a + (b + (c + d))
  {
  }

  lemma {:induction false} ItemsComeBack(items: seq<Json>, rest: seq<byte>)
    requires items != []
    ensures ReadItems(PrintItems(items) + ([CLOSE_BRACKET] + rest)) == Got(items, rest)
    decreases items, 0
  {
    hide Print, PrintItems, ReadItems, ReadValue;
    var behind := [CLOSE_BRACKET] + rest;
    PrintItemsSplits(items, behind);
    if |items| == 1 {
      ValueComesBack(items[0], behind);
      LastItem(PrintItems(items) + behind, items[0], behind, rest);
      assert items == [items[0]];
    } else {
      var others := PrintItems(items[1..]) + behind;
      ValueComesBack(items[0], [COMMA] + others);
      ItemsComeBack(items[1..], rest);
      NextItem(PrintItems(items) + behind, items[0], others, items[1..], rest);
      assert items == [items[0]] + items[1..];
    }
  }

  lemma MemberStep(text: seq<byte>, m: Member, behind: seq<byte>, rest: seq<byte>)
    requires ReadText(text) == Got(m.key, [COLON] + behind) && ReadValue(behind) == Got(m.value, rest)
    ensures ReadMember(text) == Got(m, rest)
  {
    assert ([COLON] + behind)[1..] == behind;
    hide ReadValue, ReadText;
  }

  lemma {:induction false} MemberComesBack(m: Member, rest: seq<byte>)
    requires Ends(rest)
    ensures ReadMember(PrintMember(m) + rest) == Got(m, rest)
    decreases m, 2
  {
    hide ReadMember, ReadText, ReadValue, Print, PrintText;
    var behind := Print(m.value) + rest;
    TextComesBack(m.key, [COLON] + behind);
    ValueComesBack(m.value, rest);
    assert PrintMember(m) + rest == PrintText(m.key) + ([COLON] + behind);
    MemberStep(PrintMember(m) + rest, m, behind, rest);
  }

  lemma LastMember(text: seq<byte>, m: Member, behind: seq<byte>, rest: seq<byte>)
    requires ReadMember(text) == Got(m, behind) && behind == [CLOSE_BRACE] + rest
    ensures ReadMembers(text) == Got([m], rest)
  {
    assert behind[1..] == rest;
    hide ReadMember;
  }

  lemma NextMember(text: seq<byte>, m: Member, others: seq<byte>, more: seq<Member>, rest: seq<byte>)
    requires ReadMember(text) == Got(m, [COMMA] + others) && ReadMembers(others) == Got(more, rest)
    ensures ReadMembers(text) == Got([m] + more, rest)
  {
    assert ([COMMA] + others)[1..] == others;
    hide ReadMember;
  }

  lemma PrintMembersSplits(members: seq<Member>, back: seq<byte>)
    requires members != []
    ensures |members| == 1 ==> PrintMembers(members) + back == PrintMember(members[0]) + back
    ensures |members| > 1 ==>
      PrintMembers(members) + back == PrintMember(members[0]) + ([COMMA] + (PrintMembers(members[1..]) + back))
  {
    hide PrintMember;
    if |members| > 1 {
      Regrouped(PrintMember(members[0]), [COMMA], PrintMembers(members[1..]), back);
    }
  }

  lemma {:induction false} MembersComeBack(members: seq<Member>, rest: seq<byte>)
    requires members != []
    ensures ReadMembers(PrintMembers(members) + ([CLOSE_BRACE] + rest)) == Got(members, rest)
    decreases members, 0
  {
    hide PrintMember, PrintMembers, ReadMembers, ReadMember;
    var behind := [CLOSE_BRACE] + rest;
    PrintMembersSplits(members, behind);
    if |members| == 1 {
      MemberComesBack(members[0], behind);
      LastMember(PrintMembers(members) + behind, members[0], behind, rest);
      assert members == [members[0]];
    } else {
      var others := PrintMembers(members[1..]) + behind;
      MemberComesBack(members[0], [COMMA] + others);
      MembersComeBack(members[1..], rest);
      NextMember(PrintMembers(members) + behind, members[0], others, members[1..], rest);
      assert members == [members[0]] + members[1..];
    }
  }

  /** The compact text of any value is read back as exactly that value. */
  lemma ParseRoundTrip(v: Json)
    ensures Parse(Print(v)) == Some(v)
  {
    ValueComesBack(v, []);
    assert Print(v) + [] == Print(v);
  }

  /** So two values with the same text are the same value. */
  lemma PrintInjective(v: Json, w: Json)
    ensures Print(v) == Print(w) <==> v == w
  {
    ParseRoundTrip(v);
    ParseRoundTrip(w);
  }
}
