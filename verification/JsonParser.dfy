/**
 * A parser for what `Stringify` prints (strings as in section 7 of RFC 8259). The source has
 * no such parser: it is the witness that a printed value can be read back in one way only,
 * which is what makes hashing the printed text the same as hashing the value.
 */
module JsonParser {
  import opened Common
  import opened JsStrings
  import opened Records
  import opened Json

  type Parsed<T> = Option<(T, string)>

  function HexValue(c: char): Option<nat> {
    if '0' <= c <= '9' then Some(c as int - 48)
    else if 'a' <= c <= 'f' then Some(c as int - 87)
    else None
  }

  /** The escape after a backslash: the character it stands for and what follows. */
  function ParseEscape(s: string): (r: Parsed<char>)
    ensures r.Some? ==> |r.value.1| < |s|
  {
    if s == "" then None
    else if s[0] == '\"' || s[0] == '\\' || s[0] == '/' then Some((s[0], s[1..]))
    else if s[0] == 'b' then Some((8 as char, s[1..]))
    else if s[0] == 't' then Some((9 as char, s[1..]))
    else if s[0] == 'n' then Some((10 as char, s[1..]))
    else if s[0] == 'f' then Some((12 as char, s[1..]))
    else if s[0] == 'r' then Some((13 as char, s[1..]))
    else if |s| >= 5 && s[..3] == "u00" && HexValue(s[3]).Some? && HexValue(s[4]).Some? then
      Some(((HexValue(s[3]).value * 16 + HexValue(s[4]).value) as char, s[5..]))
    else None
  }

  /** The rest of a string literal, after its opening quote. */
  function ParseChars(s: string): (r: Parsed<string>)
    ensures r.Some? ==> |r.value.1| < |s|
    decreases |s|
  {
    if s == "" then None
    else if s[0] == '\"' then Some(("", s[1..]))
    else if s[0] == '\\' then
      match ParseEscape(s[1..])
      case None => None
      case Some((c, more)) =>
        match ParseChars(more)
        case None => None
        case Some((t, rest)) => Some(([c] + t, rest))
    else
      match ParseChars(s[1..])
      case None => None
      case Some((t, rest)) => Some(([s[0]] + t, rest))
  }

  function ParseValue(s: string): (r: Parsed<Json>)
    ensures r.Some? ==> |r.value.1| < |s|
    decreases |s|, 0
  {
    if s == "" then None
    else if "null" <= s then Some((Null, s[4..]))
    else if "true" <= s then Some((Bool(true), s[4..]))
    else if "false" <= s then Some((Bool(false), s[5..]))
    else if IsDigit(s[0]) then
      var (n, rest) := ReadDigits(DigitValue(s[0]), s[1..]);
      Some((Num(n), rest))
    else if s[0] == '-' && |s| > 1 && IsDigit(s[1]) then
      var (n, rest) := ReadDigits(DigitValue(s[1]), s[2..]);
      Some((Num(-(n as int)), rest))
    else if s[0] == '\"' then
      match ParseChars(s[1..])
      case None => None
      case Some((t, rest)) => Some((Str(t), rest))
    else if "[]" <= s then Some((Arr([]), s[2..]))
    else if s[0] == '[' then
      match ParseItems(s[1..])
      case None => None
      case Some((items, rest)) => Some((Arr(items), rest))
    else if "{}" <= s then Some((Obj([]), s[2..]))
    else if s[0] == '{' then
      match ParseMembers(s[1..])
      case None => None
      case Some((ms, rest)) => Some((Obj(ms), rest))
    else None
  }

  /** One or more values separated by commas, up to the closing bracket. */
  function ParseItems(s: string): (r: Parsed<seq<Json>>)
    ensures r.Some? ==> |r.value.1| < |s|
    decreases |s|, 1
  {
    match ParseValue(s)
    case None => None
    case Some((v, more)) =>
      if more == "" then None
      else if more[0] == ']' then Some(([v], more[1..]))
      else if more[0] == ',' then
        match ParseItems(more[1..])
        case None => None
        case Some((vs, rest)) => Some(([v] + vs, rest))
      else None
  }

  function ParseMember(s: string): (r: Parsed<Entry<Json>>)
    ensures r.Some? ==> |r.value.1| < |s|
    decreases |s|, 1
  {
    if s == "" || s[0] != '\"' then None
    else
      match ParseChars(s[1..])
      case None => None
      case Some((key, more)) =>
        if more == "" || more[0] != ':' then None
        else
          match ParseValue(more[1..])
          case None => None
          case Some((v, rest)) => Some((Entry(key, v), rest))
  }

  function ParseMembers(s: string): (r: Parsed<seq<Entry<Json>>>)
    ensures r.Some? ==> |r.value.1| < |s|
    decreases |s|, 2
  {
    match ParseMember(s)
    case None => None
    case Some((m, more)) =>
      if more == "" then None
      else if more[0] == '}' then Some(([m], more[1..]))
      else if more[0] == ',' then
        match ParseMembers(more[1..])
        case None => None
        case Some((ms, rest)) => Some(([m] + ms, rest))
      else None
  }

  /** The value a complete text stands for. */
  function Parse(s: string): Option<Json> {
    match ParseValue(s)
    case Some((v, rest)) => if rest == "" then Some(v) else None
    case None => None
  }

  // ---- reading back what was printed -----------------------------------------------------

  lemma ParseEscapeOf(c: char, rest: string)
    requires Escape(c)[0] == '\\'
    ensures ParseEscape(Escape(c)[1..] + rest) == Some((c, rest))
  {
    var s := Escape(c)[1..] + rest;
    if c == '\"' || c == '\\' || c as int == 8 || c as int == 9 || c as int == 10 || c as int == 12 || c as int == 13 {
      assert |Escape(c)| == 2;
      assert s == [Escape(c)[1]] + rest;
      assert s[1..] == rest;
    } else {
      var hi, lo := HexDigit(c as int / 16), HexDigit(c as int % 16);
      assert Escape(c) == ['\\', 'u', '0', '0', hi, lo];
      assert s == ['u', '0', '0', hi, lo] + rest;
      assert s[..3] == "u00" && s[3] == hi && s[4] == lo && s[5..] == rest;
    }
  }

  lemma ParseCharsStep(c: char, tail: string, t: string, rest: string)
    requires ParseChars(tail) == Some((t, rest))
    ensures ParseChars(Escape(c) + tail) == Some(([c] + t, rest))
  {
    if Escape(c)[0] == '\\' {
      ParseEscapeOf(c, tail);
      assert (Escape(c) + tail)[1..] == Escape(c)[1..] + tail;
    } else {
      assert Escape(c) == [c] && ([c] + tail)[1..] == tail;
    }
  }

  lemma {:induction false} ParseCharsOf(t: string, rest: string)
    ensures ParseChars(EscapeAll(t) + "\"" + rest) == Some((t, rest))
  {
    if t == "" {
      assert EscapeAll(t) + "\"" + rest == "\"" + rest && ("\"" + rest)[1..] == rest;
    } else {
      var tail := EscapeAll(t[1..]) + "\"" + rest;
      ParseCharsOf(t[1..], rest);
      ParseCharsStep(t[0], tail, t[1..], rest);
      assert EscapeAll(t) + "\"" + rest == Escape(t[0]) + tail;
      assert t == [t[0]] + t[1..];
    }
  }

  /** Numbers are the only values that could run into what follows them. */
  predicate Delimited(rest: string) {
    rest == "" || !IsDigit(rest[0])
  }

  lemma ParseNumberOf(n: int, rest: string)
    requires Delimited(rest)
    ensures ParseValue(IntText(n) + rest) == Some((Num(n), rest))
  {
    var digits := NatText(if n < 0 then -n else n);
    ReadNatText(if n < 0 then -n else n, rest);
    var s := IntText(n) + rest;
    DigitsShape(digits, rest);
    if n < 0 {
      ParseNegative(s, -n, rest);
    } else {
      ParseDigits(s, n, rest);
    }
  }

  lemma ReadNatText(n: nat, rest: string)
    requires Delimited(rest)
    ensures NatText(n) != "" && IsDigit(NatText(n)[0])
    ensures ReadDigits(DigitValue(NatText(n)[0]), NatText(n)[1..] + rest) == (n, rest)
  {
    var digits := NatText(n);
    FoldOfNatText(n);
    ReadDigitsOf(DigitValue(digits[0]), digits[1..], rest);
    assert Fold(0, digits) == Fold(DigitValue(digits[0]), digits[1..]);
  }

  lemma DigitsShape(digits: string, rest: string)
    requires digits != ""
    ensures var s := digits + rest; s[0] == digits[0] && s[1..] == digits[1..] + rest
    ensures var s := "-" + digits + rest; s[0] == '-' && s[1] == digits[0] && s[2..] == digits[1..] + rest
  {
  }

  lemma ParseDigits(s: string, n: nat, rest: string)
    requires s != "" && IsDigit(s[0]) && ReadDigits(DigitValue(s[0]), s[1..]) == (n, rest)
    ensures ParseValue(s) == Some((Num(n), rest))
  {
  }

  lemma ParseNegative(s: string, n: nat, rest: string)
    requires |s| > 1 && s[0] == '-' && IsDigit(s[1]) && ReadDigits(DigitValue(s[1]), s[2..]) == (n, rest)
    ensures ParseValue(s) == Some((Num(-(n as int)), rest))
  {
  }

  lemma ParseBoolOf(b: bool, rest: string)
    ensures ParseValue(Stringify(Bool(b)) + rest) == Some((Bool(b), rest))
  {
    var s := Stringify(Bool(b)) + rest;
    if b {
      assert s[0] == 't' && "true" <= s && s[4..] == rest;
    } else {
      assert s[0] == 'f' && "false" <= s && s[5..] == rest;
    }
  }

  lemma ParseStringOf(t: string, rest: string)
    ensures ParseValue(Stringify(Str(t)) + rest) == Some((Str(t), rest))
  {
    var s := Stringify(Str(t)) + rest;
    assert s[0] == '\"' && s[1..] == EscapeAll(t) + "\"" + rest;
    ParseCharsOf(t, rest);
  }

  lemma ParseArrayOf(text: string, items: seq<Json>, rest: string)
    requires text != "" && text[0] != ']' && ParseItems(text + "]" + rest) == Some((items, rest))
    ensures ParseValue("[" + text + "]" + rest) == Some((Arr(items), rest))
  {
    var s := "[" + text + "]" + rest;
    assert s[0] == '[' && s[1] == text[0] && s[1..] == text + "]" + rest;
  }

  lemma ParseObjectOf(text: string, ms: seq<Entry<Json>>, rest: string)
    requires text != "" && text[0] == '\"' && ParseMembers(text + "}" + rest) == Some((ms, rest))
    ensures ParseValue("{" + text + "}" + rest) == Some((Obj(ms), rest))
  {
    var s := "{" + text + "}" + rest;
    assert s[0] == '{' && s[1] == text[0] && s[1..] == text + "}" + rest;
  }

  lemma {:induction false} ParseValueOf(v: Json, rest: string)
    requires Delimited(rest)
    ensures ParseValue(Stringify(v) + rest) == Some((v, rest))
    decreases v, 1
  {
    match v
    case Null => assert ("null" + rest)[4..] == rest;
    case Bool(b) => ParseBoolOf(b, rest);
    case Num(n) => ParseNumberOf(n, rest);
    case Str(t) => ParseStringOf(t, rest);
    case Arr(items) =>
      if items == [] {
        assert "[" + "" + "]" + rest == "[]" + rest && ("[]" + rest)[2..] == rest;
      } else {
        StringifyStart(items[0]);
        ParseItemsOf(items, rest);
        ParseArrayOf(StringifyItems(items), items, rest);
      }
    case Obj(ms) =>
      if ms == [] {
        assert "{" + "" + "}" + rest == "{}" + rest && ("{}" + rest)[2..] == rest;
      } else {
        ParseMembersOf(ms, rest);
        ParseObjectOf(StringifyMembers(ms), ms, rest);
      }
  }

  /** No printed value is empty or starts with a closing bracket. */
  lemma StringifyStart(v: Json)
    ensures Stringify(v) != "" && Stringify(v)[0] != ']'
  {
    match v
    case Num(n) => assert n >= 0 ==> IsDigit(NatText(n)[0]);
    case _ =>
  }

  lemma ParseItemsLast(s: string, v: Json, rest: string)
    requires ParseValue(s) == Some((v, "]" + rest))
    ensures ParseItems(s) == Some(([v], rest))
  {
    assert ("]" + rest)[1..] == rest;
  }

  lemma ParseItemsStep(s: string, v: Json, more: string, vs: seq<Json>, rest: string)
    requires ParseValue(s) == Some((v, "," + more)) && ParseItems(more) == Some((vs, rest))
    ensures ParseItems(s) == Some(([v] + vs, rest))
  {
    assert ("," + more)[1..] == more;
  }

  lemma Regroup(first: string, more: string, close: string, rest: string)
    ensures first + "," + more + close + rest == first + ("," + (more + close + rest))
    ensures first + close + rest == first + (close + rest)
  {
  }

  lemma ItemsText(items: seq<Json>, rest: string)
    requires items != []
    ensures StringifyItems(items) + "]" + rest == Stringify(items[0]) +
      if |items| == 1 then "]" + rest else "," + (StringifyItems(items[1..]) + "]" + rest)
  {
    Regroup(Stringify(items[0]), if |items| == 1 then "" else StringifyItems(items[1..]), "]", rest);
  }

  lemma ParseItemsMore(items: seq<Json>, s: string, more: string, rest: string)
    requires |items| > 1 && s == Stringify(items[0]) + ("," + more) && ParseItems(more) == Some((items[1..], rest))
    ensures ParseItems(s) == Some((items, rest))
    decreases items, 0
  {
    ParseValueOf(items[0], "," + more);
    ParseItemsStep(s, items[0], more, items[1..], rest);
    assert items == [items[0]] + items[1..];
  }

  lemma {:induction false} ParseItemsOf(items: seq<Json>, rest: string)
    requires items != []
    ensures ParseItems(StringifyItems(items) + "]" + rest) == Some((items, rest))
    decreases items, 1
  {
    var s := StringifyItems(items) + "]" + rest;
    ItemsText(items, rest);
    if |items| == 1 {
      ParseValueOf(items[0], "]" + rest);
      ParseItemsLast(s, items[0], rest);
      assert items == [items[0]];
    } else {
      ParseItemsOf(items[1..], rest);
      ParseItemsMore(items, s, StringifyItems(items[1..]) + "]" + rest, rest);
    }
  }

  /** A key, its colon and its value. */
  function MemberText(m: Entry<Json>): string {
    Quote(m.key) + ":" + Stringify(m.value)
  }

  lemma ParseMemberStep(key: string, v: Json, text: string, rest: string)
    requires ParseValue(text + rest) == Some((v, rest))
    ensures ParseMember(Quote(key) + ":" + text + rest) == Some((Entry(key, v), rest))
  {
    var s := Quote(key) + ":" + text + rest;
    var more := ":" + (text + rest);
    MemberShape(key, text, rest);
    ParseCharsOf(key, more);
    ParseMemberFrom(s, key, more, v, rest);
  }

  lemma MemberShape(key: string, text: string, rest: string)
    ensures
      var s, more := Quote(key) + ":" + text + rest, ":" + (text + rest);
      s != "" && s[0] == '\"' && s[1..] == EscapeAll(key) + "\"" + more && more[1..] == text + rest
  {
  }

  lemma ParseMemberFrom(s: string, key: string, more: string, v: Json, rest: string)
    requires s != "" && s[0] == '\"' && ParseChars(s[1..]) == Some((key, more))
    requires more != "" && more[0] == ':' && ParseValue(more[1..]) == Some((v, rest))
    ensures ParseMember(s) == Some((Entry(key, v), rest))
  {
  }

  lemma {:induction false} ParseMemberOf(m: Entry<Json>, rest: string)
    requires Delimited(rest)
    ensures ParseMember(MemberText(m) + rest) == Some((m, rest))
    decreases m, 2
  {
    ParseValueOf(m.value, rest);
    ParseMemberStep(m.key, m.value, Stringify(m.value), rest);
  }

  lemma ParseMembersLast(s: string, m: Entry<Json>, rest: string)
    requires ParseMember(s) == Some((m, "}" + rest))
    ensures ParseMembers(s) == Some(([m], rest))
  {
    assert ("}" + rest)[1..] == rest;
  }

  lemma ParseMembersStep(s: string, m: Entry<Json>, more: string, ms: seq<Entry<Json>>, rest: string)
    requires ParseMember(s) == Some((m, "," + more)) && ParseMembers(more) == Some((ms, rest))
    ensures ParseMembers(s) == Some(([m] + ms, rest))
  {
    assert ("," + more)[1..] == more;
  }

  lemma MembersText(ms: seq<Entry<Json>>, rest: string)
    requires ms != []
    ensures StringifyMembers(ms) + "}" + rest == MemberText(ms[0]) +
      if |ms| == 1 then "}" + rest else "," + (StringifyMembers(ms[1..]) + "}" + rest)
  {
    Regroup(MemberText(ms[0]), if |ms| == 1 then "" else StringifyMembers(ms[1..]), "}", rest);
  }

  lemma ParseMembersMore(ms: seq<Entry<Json>>, s: string, more: string, rest: string)
    requires |ms| > 1 && s == MemberText(ms[0]) + ("," + more) && ParseMembers(more) == Some((ms[1..], rest))
    ensures ParseMembers(s) == Some((ms, rest))
    decreases ms, 2
  {
    ParseMemberOf(ms[0], "," + more);
    ParseMembersStep(s, ms[0], more, ms[1..], rest);
    assert ms == [ms[0]] + ms[1..];
  }

  lemma {:induction false} ParseMembersOf(ms: seq<Entry<Json>>, rest: string)
    requires ms != []
    ensures ParseMembers(StringifyMembers(ms) + "}" + rest) == Some((ms, rest))
    decreases ms, 3
  {
    var s := StringifyMembers(ms) + "}" + rest;
    MembersText(ms, rest);
    if |ms| == 1 {
      ParseMemberOf(ms[0], "}" + rest);
      ParseMembersLast(s, ms[0], rest);
      assert ms == [ms[0]];
    } else {
      ParseMembersOf(ms[1..], rest);
      ParseMembersMore(ms, s, StringifyMembers(ms[1..]) + "}" + rest, rest);
    }
  }

  /** Reading back what was printed gives the value, with its keys in the same order. */
  lemma ParseOfStringify(v: Json)
    ensures Parse(Stringify(v)) == Some(v)
  {
    ParseValueOf(v, "");
    assert Stringify(v) + "" == Stringify(v);
  }

  /** Reading back the canonical text gives the value with its keys sorted. */
  lemma ParseOfCanonical(v: Json)
    ensures Parse(Canonical(v)) == Some(SortKeys(v))
  {
    CanonicalIsSorted(v);
    ParseOfStringify(SortKeys(v));
  }

  /** The canonical text is equal exactly for values equal up to key order. */
  lemma CanonicalUnambiguous(a: Json, b: Json)
    requires WellFormed(a) && WellFormed(b)
    ensures Canonical(a) == Canonical(b) <==> Same(a, b)
  {
    ParseOfCanonical(a);
    ParseOfCanonical(b);
    SameIffSortKeys(a, b);
    CanonicalIsSorted(a);
    CanonicalIsSorted(b);
  }
}
