/** The message body that CreateTask writes by hand, with the task type quoted by fmt's %q, and the
    JSON reading of it that the worker does (string syntax: section 7 of RFC 8259).

    %q prints a character above ASCII as itself exactly when Go's Unicode tables call it printable;
    those tables are the parameter `printable`. */
module QueueBody {
  import opened Prelude
  import opened Numerals

  datatype Payload = Payload(id: int, userId: int, taskType: string)

  predicate IsInt64(n: int) {
    -0x8000_0000_0000_0000 <= n < 0x8000_0000_0000_0000
  }

  // ---------------------------------------------------------------- printing

  function HexDigit(d: nat): char
    requires d < 16
  {
    if d < 10 then ('0' as int + d) as char else ('a' as int + d - 10) as char
  }

  function Hex(n: nat, width: nat): (s: string)
    ensures |s| == width
  {
    if width == 0 then "" else Hex(n / 16, width - 1) + [HexDigit(n % 16)]
  }

  predicate IsPrint(c: char, printable: char -> bool) {
    if c as int < 0x80 then ' ' <= c <= '~' else printable(c)
  }

  /** One character as %q prints it. */
  function Escape(c: char, printable: char -> bool): (s: string)
    ensures |s| > 0 && s[0] != '\"'
  {
    if c == '\"' || c == '\\' then ['\\', c]
    else if IsPrint(c, printable) then [c]
    else match c as int
      case 7 => "\\a"
      case 8 => "\\b"
      case 12 => "\\f"
      case 10 => "\\n"
      case 13 => "\\r"
      case 9 => "\\t"
      case 11 => "\\v"
      case n =>
        if c < ' ' || n == 0x7f then "\\x" + Hex(n, 2)
        else if n < 0x10000 then "\\u" + Hex(n, 4)
        else "\\U" + Hex(n, 8)
  }

  function Escaped(t: string, printable: char -> bool): string {
    if t == "" then "" else Escape(t[0], printable) + Escaped(t[1..], printable)
  }

  function Field(key: string, text: string): string {
    "\n\t\t\t\"" + key + "\": " + text
  }

  function Body(p: Payload, printable: char -> bool): string {
    "{" + (Field("id", Decimal(p.id)) + ("," +
    (Field("user_id", Decimal(p.userId)) + ("," +
    (Field("task_type", "\"" + Escaped(p.taskType, printable) + "\"") + "\n\t\t}")))))
  }

  // ---------------------------------------------------------------- reading

  function HexValue(c: char): Option<nat> {
    if '0' <= c <= '9' then Some(c as int - '0' as int)
    else if 'a' <= c <= 'f' then Some(c as int - 'a' as int + 10)
    else if 'A' <= c <= 'F' then Some(c as int - 'A' as int + 10)
    else None
  }

  function HexNumber(s: string): (n: Option<nat>)
  {
    if s == "" then Some(0) else
    match (HexNumber(s[..|s| - 1]), HexValue(s[|s| - 1]))
    case (Some(high), Some(low)) => Some(16 * high + low)
    case (_, _) => None
  }

  /** The code unit of an escape \uXXXX at the start of s. */
  function CodeUnit(s: string): Option<nat> {
    if |s| >= 6 && s[0] == '\\' && s[1] == 'u' then HexNumber(s[2..6]) else None
  }

  /** The character that code unit u stands for, with the second half of a surrogate pair read from
      `rest`; a half without its other half becomes U+FFFD. */
  function FromCodeUnit(u: nat, rest: string): (r: Option<(char, string)>)
    ensures r.Some? ==> |r.value.1| <= |rest|
  {
    if u < 0xD800 || 0xE000 <= u < 0x10000 then Some((u as char, rest))
    else if u >= 0x10000 then None
    else match CodeUnit(rest)
      case Some(low) =>
        if u < 0xDC00 <= low < 0xE000
        then Some(((0x10000 + (u - 0xD800) * 0x400 + (low - 0xDC00)) as char, rest[6..]))
        else Some((0xFFFD as char, rest))
      case None => Some((0xFFFD as char, rest))
  }

  /** One character of a JSON string. */
  function ReadChar(s: string): (r: Option<(char, string)>)
    ensures r.Some? ==> |r.value.1| < |s|
  {
    if s == "" || s[0] < ' ' || s[0] == '\"' then None
    else if s[0] != '\\' then Some((s[0], s[1..]))
    else if |s| < 2 then None
    else match s[1]
      case '\"' => Some(('\"', s[2..]))
      case '\\' => Some(('\\', s[2..]))
      case '/' => Some(('/', s[2..]))
      case 'b' => Some((8 as char, s[2..]))
      case 'f' => Some((12 as char, s[2..]))
      case 'n' => Some(('\n', s[2..]))
      case 'r' => Some(('\r', s[2..]))
      case 't' => Some(('\t', s[2..]))
      case 'u' => (match CodeUnit(s) case Some(u) => FromCodeUnit(u, s[6..]) case None => None)
      case _ => None
  }

  /** A JSON string after its opening quote. */
  function ReadString(s: string): (r: Option<(string, string)>)
    ensures r.Some? ==> |r.value.1| < |s|
    decreases |s|
  {
    if s == "" then None
    else if s[0] == '\"' then Some(("", s[1..]))
    else match ReadChar(s)
      case None => None
      case Some((c, rest)) =>
        (match ReadString(rest) case None => None case Some((t, after)) => Some(([c] + t, after)))
  }

  predicate IsSpace(c: char) {
    c == ' ' || c == '\t' || c == '\n' || c == '\r'
  }

  function SkipSpace(s: string): (r: string)
    ensures |r| <= |s|
    ensures r != "" ==> !IsSpace(r[0])
  {
    if s != "" && IsSpace(s[0]) then SkipSpace(s[1..]) else s
  }

  function DigitRun(s: string): (k: nat)
    ensures k <= |s| && forall i | 0 <= i < k :: IsDigit(s[i])
  {
    if s != "" && IsDigit(s[0]) then 1 + DigitRun(s[1..]) else 0
  }

  /** The digits of a JSON number, which has no leading zero and, for a Go int, no fraction and no
      exponent. */
  function ReadNat(s: string): (r: Option<(nat, string)>)
    ensures r.Some? ==> |r.value.1| < |s|
  {
    var k := DigitRun(s);
    if k == 0 || (k > 1 && s[0] == '0') || (k < |s| && s[k] in ".eE") then None
    else Some((Value(s[..k]), s[k..]))
  }

  function ReadInt(s: string): (r: Option<(int, string)>)
    ensures r.Some? ==> |r.value.1| < |s|
  {
    var negative := s != "" && s[0] == '-';
    match ReadNat(if negative then s[1..] else s)
    case None => None
    case Some((m, rest)) =>
      var n: int := if negative then 0 - m else m;
      if IsInt64(n) then Some((n, rest)) else None
  }

  function ReadQuoted(s: string): (r: Option<(string, string)>)
    ensures r.Some? ==> |r.value.1| < |s|
  {
    if s != "" && s[0] == '\"' then ReadString(s[1..]) else None
  }

  /** The value of a member, stored into the field that its key names; others are skipped. */
  function ReadValue(key: string, text: string, p: Payload): (r: Option<(Payload, string)>)
    ensures r.Some? ==> |r.value.1| < |text|
  {
    if key == "id" then
      (match ReadInt(text) case None => None case Some((n, rest)) => Some((p.(id := n), rest)))
    else if key == "user_id" then
      (match ReadInt(text) case None => None case Some((n, rest)) => Some((p.(userId := n), rest)))
    else if key == "task_type" then
      (match ReadQuoted(text) case None => None case Some((t, rest)) => Some((p.(taskType := t), rest)))
    else
      match (ReadInt(text), ReadQuoted(text))
      case (Some((_, rest)), _) => Some((p, rest))
      case (_, Some((_, rest))) => Some((p, rest))
      case (_, _) => None
  }

  /** One member of the object. */
  function ReadMember(s: string, p: Payload): (r: Option<(Payload, string)>)
    ensures r.Some? ==> |r.value.1| < |s|
  {
    match ReadQuoted(SkipSpace(s))
    case None => None
    case Some((key, afterKey)) =>
      var colon := SkipSpace(afterKey);
      if colon == "" || colon[0] != ':' then None else ReadValue(key, SkipSpace(colon[1..]), p)
  }

  function ReadMembers(s: string, p: Payload): Option<(Payload, string)>
    decreases |s|
  {
    match ReadMember(s, p)
    case None => None
    case Some((q, rest)) =>
      var next := SkipSpace(rest);
      if next == "" then None
      else if next[0] == ',' then ReadMembers(next[1..], q)
      else if next[0] == '}' then Some((q, next[1..]))
      else None
  }

  /** A body read as a payload: an object that sets the fields it names and leaves the others at
      their zero values. */
  function Unmarshal(body: string): Option<Payload> {
    var open := SkipSpace(body);
    if open == "" || open[0] != '{' then None else
    var empty := Payload(0, 0, "");
    var first := SkipSpace(open[1..]);
    var read: Option<(Payload, string)> :=
      if first != "" && first[0] == '}' then Some((empty, first[1..])) else ReadMembers(open[1..], empty);
    match read
    case Some((p, rest)) => if SkipSpace(rest) == "" then Some(p) else None
    case None => None
  }

  // ---------------------------------------------------------------- round trip

  /** Characters that %q prints in a form JSON knows. The others are the control characters without
      a short JSON escape, DEL, and unprintable characters beyond the Basic Multilingual Plane. */
  predicate JsonKnows(c: char, printable: char -> bool) {
    IsPrint(c, printable) || c as int in {8, 9, 10, 12, 13} || 0x80 <= c as int < 0x10000
  }

  predicate Encodable(t: string, printable: char -> bool) {
    forall i | 0 <= i < |t| :: JsonKnows(t[i], printable)
  }

  lemma HexDigitRoundTrip(d: nat)
    requires d < 16
    ensures HexValue(HexDigit(d)) == Some(d)
  {
  }

  function HexLimit(width: nat): nat {
    if width == 0 then 1 else 16 * HexLimit(width - 1)
  }

  lemma {:induction false} HexRoundTrip(n: nat, width: nat)
    requires n < HexLimit(width)
    ensures HexNumber(Hex(n, width)) == Some(n)
  {
    if width == 0 {
    } else {
      HexRoundTrip(n / 16, width - 1);
      HexDigitRoundTrip(n % 16);
      var s := Hex(n, width);
      assert s[..width - 1] == Hex(n / 16, width - 1) && s[width - 1] == HexDigit(n % 16);
    }
  }

  lemma FourHexDigits()
    ensures HexLimit(4) == 0x10000
  {
    assert HexLimit(1) == 16 && HexLimit(2) == 256 && HexLimit(3) == 4096;
  }

  lemma UnicodeEscapeRoundTrip(n: nat, tail: string)
    requires n < 0xD800 || 0xE000 <= n < 0x10000
    ensures ReadChar("\\u" + Hex(n, 4) + tail) == Some((n as char, tail))
  {
    var s := "\\u" + Hex(n, 4) + tail;
    FourHexDigits();
    HexRoundTrip(n, 4);
    assert s[2..6] == Hex(n, 4) && s[6..] == tail;
  }

  lemma ShortEscapeRoundTrip(c: char, printable: char -> bool, tail: string)
    requires c == '\"' || c == '\\' || (c as int < 0x80 && !IsPrint(c, printable))
    ensures ReadChar(Escape(c, printable) + tail) == if JsonKnows(c, printable) then Some((c, tail)) else None
  {
    var s := Escape(c, printable) + tail;
    assert s[0] == '\\' && s[1] == Escape(c, printable)[1];
    assert |Escape(c, printable)| == 2 ==> s[2..] == tail;
  }

  /** Reading one printed character gives it back, or fails when JSON lacks the escape. */
  lemma CharRoundTrip(c: char, printable: char -> bool, tail: string)
    ensures ReadChar(Escape(c, printable) + tail) == if JsonKnows(c, printable) then Some((c, tail)) else None
  {
    var s := Escape(c, printable) + tail;
    if c == '\"' || c == '\\' || (c as int < 0x80 && !IsPrint(c, printable)) {
      ShortEscapeRoundTrip(c, printable, tail);
    } else if IsPrint(c, printable) {
      assert s[0] == c && s[1..] == tail;
    } else if c as int < 0x10000 {
      UnicodeEscapeRoundTrip(c as int, tail);
      assert s == "\\u" + Hex(c as int, 4) + tail;
    } else {
      assert s[0] == '\\' && s[1] == 'U';
    }
  }

  lemma ReadStringStep(s: string, c: char, tail: string)
    requires s != "" && s[0] != '\"' && ReadChar(s) == Some((c, tail))
    ensures ReadString(s) == match ReadString(tail) case None => None case Some((t, after)) => Some(([c] + t, after))
  {
  }

  lemma ReadStringStops(s: string)
    requires s != "" && s[0] != '\"' && ReadChar(s) == None
    ensures ReadString(s) == None
  {
  }

  lemma EncodableFirst(t: string, printable: char -> bool)
    requires t != ""
    ensures Encodable(t, printable) <==> JsonKnows(t[0], printable) && Encodable(t[1..], printable)
    ensures [t[0]] + t[1..] == t
  {
    assert Encodable(t, printable) ==> forall i | 0 <= i < |t| - 1 :: t[1..][i] == t[i + 1];
    if JsonKnows(t[0], printable) && Encodable(t[1..], printable) {
      forall i | 0 <= i < |t| ensures JsonKnows(t[i], printable) {
        if i > 0 {
          assert t[i] == t[1..][i - 1];
        }
      }
    }
  }

  lemma {:induction false} StringRoundTrip(t: string, printable: char -> bool, rest: string)
    ensures ReadString(Escaped(t, printable) + "\"" + rest) == if Encodable(t, printable) then Some((t, rest)) else None
  {
    var s := Escaped(t, printable) + "\"" + rest;
    if t == "" {
      assert s == "\"" + rest;
    } else {
      var tail := Escaped(t[1..], printable) + "\"" + rest;
      assert s == Escape(t[0], printable) + tail;
      StringRoundTrip(t[1..], printable, rest);
      EncodableFirst(t, printable);
      CharRoundTrip(t[0], printable, tail);
      if JsonKnows(t[0], printable) {
        ReadStringStep(s, t[0], tail);
      } else {
        ReadStringStops(s);
      }
    }
  }

  predicate IsWord(key: string) {
    forall i | 0 <= i < |key| :: 'a' <= key[i] <= 'z' || key[i] == '_'
  }

  lemma {:induction false} WordRoundTrip(key: string, rest: string)
    requires IsWord(key)
    ensures ReadString(key + "\"" + rest) == Some((key, rest))
  {
    var s := key + "\"" + rest;
    if key == "" {
      assert s[1..] == rest;
    } else {
      WordRoundTrip(key[1..], rest);
      assert s[1..] == key[1..] + "\"" + rest;
      assert [key[0]] + key[1..] == key;
    }
  }

  lemma {:induction false} SkipsSpaces(spaces: string, rest: string)
    requires forall i | 0 <= i < |spaces| :: IsSpace(spaces[i])
    requires rest != "" ==> !IsSpace(rest[0])
    ensures SkipSpace(spaces + rest) == rest
  {
    if spaces == "" {
      assert spaces + rest == rest;
    } else {
      SkipsSpaces(spaces[1..], rest);
      assert (spaces + rest)[1..] == spaces[1..] + rest;
    }
  }

  lemma {:induction false} DigitRunOf(digits: string, rest: string)
    requires forall i | 0 <= i < |digits| :: IsDigit(digits[i])
    requires rest != "" ==> !IsDigit(rest[0])
    ensures DigitRun(digits + rest) == |digits|
  {
    if digits == "" {
      assert digits + rest == rest;
    } else {
      DigitRunOf(digits[1..], rest);
      assert (digits + rest)[1..] == digits[1..] + rest;
    }
  }

  /** What may follow a number in the body. */
  predicate EndsNumber(rest: string) {
    rest != "" && !IsDigit(rest[0]) && rest[0] !in ".eE"
  }

  lemma NatRoundTrip(m: nat, rest: string)
    requires EndsNumber(rest)
    ensures ReadNat(Digits(m) + rest) == Some((m, rest))
  {
    var s, k := Digits(m) + rest, |Digits(m)|;
    DigitRunOf(Digits(m), rest);
    ValueOfDigits(m);
    assert s[..k] == Digits(m) && s[k..] == rest && s[k] == rest[0];
  }

  lemma SignedRead(digits: string, m: nat, rest: string, n: int)
    requires digits != "" && digits[0] != '-' && ReadNat(digits + rest) == Some((m, rest))
    requires n == m || n == 0 - m
    ensures n < 0 ==> ReadInt("-" + digits + rest) == if IsInt64(n) then Some((n, rest)) else None
    ensures n >= 0 ==> ReadInt(digits + rest) == if IsInt64(n) then Some((n, rest)) else None
  {
    assert ("-" + digits + rest)[1..] == digits + rest;
  }

  lemma IntRoundTrip(n: int, rest: string)
    requires EndsNumber(rest)
    ensures ReadInt(Decimal(n) + rest) == if IsInt64(n) then Some((n, rest)) else None
  {
    var m: nat := if n < 0 then -n else n;
    NatRoundTrip(m, rest);
    SignedRead(Digits(m), m, rest, n);
  }

  /** The key of a printed field is read back and its text comes next. */
  lemma FieldRoundTrip(key: string, text: string, rest: string, p: Payload)
    requires IsWord(key) && text != "" && !IsSpace(text[0])
    ensures ReadMember(Field(key, text) + rest, p) == ReadValue(key, text + rest, p)
    ensures SkipSpace(Field(key, text) + rest) != "" && SkipSpace(Field(key, text) + rest)[0] == '\"'
  {
    var s := Field(key, text) + rest;
    var afterKey := ": " + text + rest;
    var quoted := "\"" + key + "\"" + afterKey;
    assert s == "\n\t\t\t" + quoted;
    SkipsSpaces("\n\t\t\t", quoted);
    assert ReadQuoted(quoted) == Some((key, afterKey)) by {
      assert quoted[1..] == key + "\"" + afterKey;
      WordRoundTrip(key, afterKey);
    }
    assert SkipSpace(afterKey[1..]) == text + rest by {
      assert afterKey[1..] == " " + (text + rest);
      SkipsSpaces(" ", text + rest);
    }
  }

  lemma IntFieldRoundTrip(key: string, n: int, rest: string, p: Payload)
    requires key == "id" || key == "user_id"
    requires IsInt64(n) && EndsNumber(rest)
    ensures ReadMember(Field(key, Decimal(n)) + rest, p) ==
            Some((if key == "id" then p.(id := n) else p.(userId := n), rest))
  {
    FieldRoundTrip(key, Decimal(n), rest, p);
    IntRoundTrip(n, rest);
  }

  lemma QuotedRoundTrip(t: string, printable: char -> bool, rest: string)
    ensures ReadQuoted("\"" + Escaped(t, printable) + "\"" + rest) ==
            if Encodable(t, printable) then Some((t, rest)) else None
  {
    var s := "\"" + Escaped(t, printable) + "\"" + rest;
    assert s[1..] == Escaped(t, printable) + "\"" + rest;
    StringRoundTrip(t, printable, rest);
  }

  lemma TypeValue(text: string, p: Payload)
    ensures ReadValue("task_type", text, p) ==
            match ReadQuoted(text) case None => None case Some((t, rest)) => Some((p.(taskType := t), rest))
  {
    assert |"task_type"| == 9 && |"user_id"| == 7 && |"id"| == 2;
  }

  lemma TypeFieldRoundTrip(t: string, printable: char -> bool, rest: string, p: Payload)
    ensures ReadMember(Field("task_type", "\"" + Escaped(t, printable) + "\"") + rest, p) ==
            if Encodable(t, printable) then Some((p.(taskType := t), rest)) else None
  {
    var text := "\"" + Escaped(t, printable) + "\"";
    FieldRoundTrip("task_type", text, rest, p);
    TypeValue(text + rest, p);
    QuotedRoundTrip(t, printable, rest);
  }

  lemma NextMember(s: string, p: Payload, q: Payload, rest: string)
    requires ReadMember(s, p) == Some((q, "," + rest))
    ensures ReadMembers(s, p) == ReadMembers(rest, q)
  {
    assert ("," + rest)[1..] == rest;
  }

  lemma LastMember(s: string, p: Payload)
    requires ReadMember(s, p).Some? ==> ReadMember(s, p).value.1 == "\n\t\t}"
    ensures ReadMembers(s, p) == match ReadMember(s, p) case Some((q, _)) => Some((q, "")) case None => None
  {
    SkipsSpaces("\n\t\t", "}");
    assert "\n\t\t" + "}" == "\n\t\t}" && "}"[1..] == "";
  }

  lemma IntMember(key: string, n: int, rest: string, p: Payload)
    requires (key == "id" || key == "user_id") && IsInt64(n)
    ensures ReadMembers(Field(key, Decimal(n)) + ("," + rest), p) ==
            ReadMembers(rest, if key == "id" then p.(id := n) else p.(userId := n))
  {
    IntFieldRoundTrip(key, n, "," + rest, p);
    NextMember(Field(key, Decimal(n)) + ("," + rest), p, if key == "id" then p.(id := n) else p.(userId := n), rest);
  }

  lemma TypeMember(t: string, printable: char -> bool, p: Payload)
    ensures ReadMembers(Field("task_type", "\"" + Escaped(t, printable) + "\"") + "\n\t\t}", p) ==
            if Encodable(t, printable) then Some((p.(taskType := t), "")) else None
  {
    TypeFieldRoundTrip(t, printable, "\n\t\t}", p);
    LastMember(Field("task_type", "\"" + Escaped(t, printable) + "\"") + "\n\t\t}", p);
  }

  lemma UnmarshalObject(members: string)
    requires SkipSpace(members) != "" && SkipSpace(members)[0] == '\"'
    requires var r := ReadMembers(members, Payload(0, 0, "")); r.Some? ==> r.value.1 == ""
    ensures Unmarshal("{" + members) ==
            match ReadMembers(members, Payload(0, 0, "")) case Some((p, _)) => Some(p) case None => None
  {
    var body := "{" + members;
    assert SkipSpace(body) == body && body[1..] == members;
  }

  /** The worker reads exactly the payload that CreateTask wrote when JSON knows every escape in the
      printed task type, and reads nothing otherwise. */
  lemma BodyRoundTrip(p: Payload, printable: char -> bool)
    requires IsInt64(p.id) && IsInt64(p.userId)
    ensures Unmarshal(Body(p, printable)) == if Encodable(p.taskType, printable) then Some(p) else None
  {
    var p0 := Payload(0, 0, "");
    var p1 := p0.(id := p.id);
    var third := Field("task_type", "\"" + Escaped(p.taskType, printable) + "\"") + "\n\t\t}";
    var second := Field("user_id", Decimal(p.userId)) + ("," + third);
    var first := Field("id", Decimal(p.id)) + ("," + second);
    IntMember("id", p.id, second, p0);
    IntMember("user_id", p.userId, third, p1);
    TypeMember(p.taskType, printable, p1.(userId := p.userId));
    FieldRoundTrip("id", Decimal(p.id), "," + second, p0);
    UnmarshalObject(first);
  }

  /** For ASCII the condition does not depend on the Unicode tables: a task type survives exactly when
      it is made of printable characters and the five controls that JSON has short escapes for. */
  lemma AsciiBodyRoundTrip(p: Payload, printable: char -> bool)
    requires IsInt64(p.id) && IsInt64(p.userId)
    requires forall c | c in p.taskType :: c as int < 0x80
    ensures Unmarshal(Body(p, printable)) ==
      if forall c | c in p.taskType :: ' ' <= c <= '~' || c as int in {8, 9, 10, 12, 13} then Some(p) else None
  {
    BodyRoundTrip(p, printable);
    assert forall i | 0 <= i < |p.taskType| :: p.taskType[i] in p.taskType;
  }

  /** A task type survives exactly when its ASCII characters are printable or one of the five controls that JSON
      has short escapes for, and its other characters are printable or in the Basic Multilingual Plane. */
  lemma UnicodeBodyRoundTrip(p: Payload, printable: char -> bool)
    requires IsInt64(p.id) && IsInt64(p.userId)
    ensures Unmarshal(Body(p, printable)) ==
      if forall c | c in p.taskType ::
           if c as int < 0x80 then ' ' <= c <= '~' || c as int in {8, 9, 10, 12, 13}
           else printable(c) || c as int < 0x10000
      then Some(p) else None
  {
    BodyRoundTrip(p, printable);
    assert forall i | 0 <= i < |p.taskType| :: p.taskType[i] in p.taskType;
  }

  // ---------------------------------------------------------------- the texts themselves

  lemma FieldsAreWritten(text: string)
    ensures Field("id", text) == "\n\t\t\t\"id\": " + text
    ensures Field("user_id", text) == "\n\t\t\t\"user_id\": " + text
    ensures Field("task_type", text) == "\n\t\t\t\"task_type\": " + text
  {
    assert "\n\t\t\t\"" + "id" + "\": " == "\n\t\t\t\"id\": ";
    assert "\n\t\t\t\"" + "user_id" + "\": " == "\n\t\t\t\"user_id\": ";
    assert "\n\t\t\t\"" + "task_type" + "\": " == "\n\t\t\t\"task_type\": ";
  }

  /** The body, character by character. */
  lemma BodyIsWritten(p: Payload, printable: char -> bool)
    ensures Body(p, printable) ==
            "{" + (("\n\t\t\t\"id\": " + Decimal(p.id)) + ("," +
            (("\n\t\t\t\"user_id\": " + Decimal(p.userId)) + ("," +
            (("\n\t\t\t\"task_type\": " + ("\"" + Escaped(p.taskType, printable) + "\"")) + "\n\t\t}")))))
  {
    FieldsAreWritten(Decimal(p.id));
    FieldsAreWritten(Decimal(p.userId));
    FieldsAreWritten("\"" + Escaped(p.taskType, printable) + "\"");
  }

  /** The escapes that %q has for quotes, backslashes and control characters. */
  lemma ShortEscapesAreWritten(printable: char -> bool)
    ensures Escape('\"', printable) == "\\\"" && Escape('\\', printable) == "\\\\"
    ensures Escape(7 as char, printable) == "\\a" && Escape(8 as char, printable) == "\\b"
    ensures Escape(9 as char, printable) == "\\t" && Escape(10 as char, printable) == "\\n"
    ensures Escape(11 as char, printable) == "\\v" && Escape(12 as char, printable) == "\\f"
    ensures Escape(13 as char, printable) == "\\r"
  {
  }

  lemma OneHexDigit(d: nat)
    requires d < 16
    ensures Hex(d, 1) == [HexDigit(d)]
  {
    assert Hex(d / 16, 0) == "" && d % 16 == d;
  }

  lemma TwoHexDigits(high: nat, low: nat)
    requires high < 16 && low < 16
    ensures Hex(16 * high + low, 2) == [HexDigit(high), HexDigit(low)]
  {
    OneHexDigit(high);
    assert (16 * high + low) / 16 == high && (16 * high + low) % 16 == low;
  }

  /** Its other escapes are numbers of two, four or eight lower-case digits. */
  lemma LongEscapesAreWritten(c: char, printable: char -> bool)
    requires c != '\"' && c != '\\' && !IsPrint(c, printable) && !(7 <= c as int <= 13)
    ensures c as int < 0x80 ==>
      Escape(c, printable) == "\\x" + ["0123456789abcdef"[c as int / 16], "0123456789abcdef"[c as int % 16]]
    ensures 0x80 <= c as int < 0x10000 ==> Escape(c, printable) == "\\u" + Hex(c as int, 4)
    ensures 0x10000 <= c as int ==> Escape(c, printable) == "\\U" + Hex(c as int, 8)
  {
    if c as int < 0x80 {
      TwoHexDigits(c as int / 16, c as int % 16);
      assert HexDigit(c as int / 16) == "0123456789abcdef"[c as int / 16];
      assert HexDigit(c as int % 16) == "0123456789abcdef"[c as int % 16];
    }
  }

  /** A surrogate pair is read as the one character it stands for, and half of one as U+FFFD. */
  lemma PairIsRead(c: char, tail: string)
    requires c as int >= 0x10000
    ensures var n := c as int - 0x10000;
      ReadChar("\\u" + Hex(0xD800 + n / 0x400, 4) + ("\\u" + Hex(0xDC00 + n % 0x400, 4) + tail)) == Some((c, tail))
  {
    var n := c as int - 0x10000;
    var high, low := 0xD800 + n / 0x400, 0xDC00 + n % 0x400;
    var second := "\\u" + Hex(low, 4) + tail;
    var s := "\\u" + Hex(high, 4) + second;
    FourHexDigits();
    HexRoundTrip(high, 4);
    HexRoundTrip(low, 4);
    assert s[2..6] == Hex(high, 4) && s[6..] == second;
    assert second[2..6] == Hex(low, 4) && second[6..] == tail;
  }

  lemma HalfPairIsReplaced(n: nat, tail: string)
    requires 0xD800 <= n < 0xE000 && (n < 0xDC00 ==> CodeUnit(tail).None?)
    ensures ReadChar("\\u" + Hex(n, 4) + tail) == Some((0xFFFD as char, tail))
  {
    var s := "\\u" + Hex(n, 4) + tail;
    FourHexDigits();
    HexRoundTrip(n, 4);
    assert s[2..6] == Hex(n, 4) && s[6..] == tail;
  }
}
