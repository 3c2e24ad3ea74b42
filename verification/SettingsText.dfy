/** How a setting's value is written as text, and read back. */
module SettingsText {
  import opened Wrappers
  import opened Text

  type I64 = i: int | -0x8000_0000_0000_0000 <= i < 0x8000_0000_0000_0000

  datatype Kind =
    | Bool
    | Int(min: I64, max: I64)
    | Enum(choices: seq<string>)
    | String(nonEmpty: bool)
    | Url
    | Path
    | SocketAddr
    | List(item: Kind)
    | Secret

  datatype Value =
    | BoolValue(flag: bool) | IntValue(number: I64) | StringValue(text: string) | ListValue(items: seq<Value>)

  datatype Error =
    | NotABoolean | NotAnInteger | OutOfRange | NotAChoice | Empty | NotAUrl | NoPath | NotAnAddress
    | SecretAsText | SecretNotAString | WrongType

  /** Which texts are socket addresses is the standard library's to say. */
  type Addresses = string -> bool

  // ----- text -----

  function TrimLeft(s: string): (r: string)
    ensures |r| <= |s| && (|r| == |s| ==> r == s)
  {
    if s != "" && IsSpace(s[0]) then TrimLeft(s[1..]) else s
  }

  function TrimRight(s: string): (r: string)
    ensures |r| <= |s| && (|r| == |s| ==> r == s)
  {
    if s != "" && IsSpace(s[|s| - 1]) then TrimRight(s[..|s| - 1]) else s
  }

  function Trim(s: string): (r: string)
    ensures |r| <= |s| && (|r| == |s| ==> r == s)
  {
    TrimRight(TrimLeft(s))
  }

  predicate Wrapped(s: string, open: char, close: char) {
    |s| >= 2 && s[0] == open && s[|s| - 1] == close
  }

  /** `s` without what wraps it, if it is wrapped. */
  function Unwrapped(s: string, open: char, close: char): (r: string)
    ensures |r| <= |s| && (|r| == |s| ==> r == s)
    ensures r == s <==> !Wrapped(s, open, close)
  {
    if Wrapped(s, open, close) then s[1..|s| - 1] else s
  }

  /** The parts between commas. */
  function Split(s: string): (r: seq<string>)
    ensures r != []
  {
    if s == "" then [""]
    else
      var rest := Split(s[1..]);
      if s[0] == ',' then [""] + rest else [[s[0]] + rest[0]] + rest[1..]
  }

  function Join(parts: seq<string>): string {
    if parts == [] then ""
    else if |parts| == 1 then parts[0]
    else parts[0] + "," + Join(parts[1..])
  }

  /** A part of a list: without white space around it, then without quotes around it. */
  function Item(part: string): (r: string)
    ensures |r| <= |part| && (|r| == |part| ==> r == part)
  {
    Unwrapped(Trim(part), '"', '"')
  }

  function Items(parts: seq<string>): (r: seq<string>)
    ensures |r| == |parts|
    ensures forall i | 0 <= i < |r| :: r[i] == Item(parts[i])
  {
    seq(|parts|, i requires 0 <= i < |parts| => Item(parts[i]))
  }

  function Inner(text: string): (r: string)
    ensures |r| <= |text| && (|r| == |text| ==> r == text)
  {
    Unwrapped(Trim(text), '[', ']')
  }

  function SplitList(text: string): seq<string> {
    if Trim(Inner(text)) == "" then [] else Items(Split(Inner(text)))
  }

  // ----- numbers -----

  function Digit(n: nat): char
    requires n < 10
  {
    '0' + n as char
  }

  function NatText(n: nat): (s: string)
    ensures s != "" && AllDigits(s)
  {
    if n < 10 then [Digit(n)] else NatText(n / 10) + [Digit(n % 10)]
  }

  predicate AllDigits(s: string) {
    forall i | 0 <= i < |s| :: '0' <= s[i] <= '9'
  }

  function IntText(i: int): string {
    if i < 0 then "-" + NatText(-i) else NatText(i)
  }

  function NatOf(s: string): nat
    requires AllDigits(s)
  {
    if s == "" then 0 else 10 * NatOf(s[..|s| - 1]) + (s[|s| - 1] as int - '0' as int)
  }

  /** An optional sign and at least one digit, in 64 bits. */
  function ParseInt(s: string): Option<I64> {
    var negative := s != "" && s[0] == '-';
    var digits := if s != "" && (s[0] == '-' || s[0] == '+') then s[1..] else s;
    if digits == "" || !AllDigits(digits) then None
    else
      var n: int := NatOf(digits);
      var i := if negative then -n else n;
      if -0x8000_0000_0000_0000 <= i < 0x8000_0000_0000_0000 then Some(i) else None
  }

  // ----- values -----

  function Display(v: Value): string
    decreases v
  {
    match v
    case BoolValue(b) => if b then "true" else "false"
    case IntValue(i) => IntText(i)
    case StringValue(s) => s
    case ListValue(items) => Join(seq(|items|, i requires 0 <= i < |items| => Display(items[i])))
  }

  predicate IsUrl(s: string)
    ensures IsUrl(s) ==> |s| > 7
  {
    ("http://" <= s && |s| > |"http://"|) || (!("http://" <= s) && "https://" <= s && |s| > |"https://"|)
  }

  function Check(kind: Kind, v: Value, addresses: Addresses): Result<(), Error>
    decreases kind, 0
  {
    match (kind, v)
    case (Bool, BoolValue(_)) => Ok(())
    case (Int(min, max), IntValue(i)) => if min <= i <= max then Ok(()) else Err(OutOfRange)
    case (Enum(choices), StringValue(s)) => if s in choices then Ok(()) else Err(NotAChoice)
    case (String(nonEmpty), StringValue(s)) => if nonEmpty && s == "" then Err(Empty) else Ok(())
    case (Url, StringValue(s)) => if IsUrl(s) then Ok(()) else Err(NotAUrl)
    case (Path, StringValue(s)) => if s == "" then Err(NoPath) else Ok(())
    case (SocketAddr, StringValue(s)) => if addresses(s) then Ok(()) else Err(NotAnAddress)
    case (List(item), ListValue(items)) => CheckAll(item, items, addresses)
    case (Secret, StringValue(_)) => Ok(())
    case (Secret, _) => Err(SecretNotAString)
    case _ => Err(WrongType)
  }

  /** All of them, or the first error. */
  function CheckAll(item: Kind, items: seq<Value>, addresses: Addresses): Result<(), Error>
    decreases item, |items| + 1
  {
    if items == [] then Ok(())
    else
      var first := Check(item, items[0], addresses);
      if first.Err? then first else CheckAll(item, items[1..], addresses)
  }

  function Read(kind: Kind, text: string, addresses: Addresses): Result<Value, Error>
    decreases kind, 0
  {
    match kind
    case Bool =>
      if text == "true" || text == "on" then Ok(BoolValue(true))
      else if text == "false" || text == "off" then Ok(BoolValue(false))
      else Err(NotABoolean)
    case Int(_, _) =>
      var i := ParseInt(Trim(text));
      if i.Some? then Ok(IntValue(i.value)) else Err(NotAnInteger)
    case List(item) =>
      var items := ParseAll(item, SplitList(text), addresses);
      if items.Ok? then Ok(ListValue(items.value)) else Err(items.error)
    case Secret => Err(SecretAsText)
    case _ => Ok(StringValue(text))
  }

  function Parse(kind: Kind, text: string, addresses: Addresses): Result<Value, Error>
    decreases kind, 1
  {
    var value := Read(kind, text, addresses);
    if value.Err? then value
    else
      var checked := Check(kind, value.value, addresses);
      if checked.Err? then Err(checked.error) else value
  }

  function ParseAll(item: Kind, parts: seq<string>, addresses: Addresses): Result<seq<Value>, Error>
    decreases item, |parts| + 2
  {
    if parts == [] then Ok([])
    else
      var first := Parse(item, parts[0], addresses);
      if first.Err? then Err(first.error)
      else
        var rest := ParseAll(item, parts[1..], addresses);
        if rest.Err? then rest else Ok([first.value] + rest.value)
  }

  // ----- every value of one piece -----

  lemma {:induction false} NatRoundTrip(n: nat)
    ensures NatOf(NatText(n)) == n
    decreases n
  {
    if n >= 10 {
      var s := NatText(n);
      assert s[..|s| - 1] == NatText(n / 10);
      NatRoundTrip(n / 10);
    } else {
      assert NatText(n)[..0] == "";
    }
  }

  lemma IntRoundTrip(i: I64)
    ensures ParseInt(IntText(i)) == Some(i)
  {
    hide NatText, NatOf;
    if i < 0 {
      var n: int := i;
      NatRoundTrip(-n);
      assert IntText(i)[1..] == NatText(-n);
    } else {
      NatRoundTrip(i);
    }
  }

  lemma NothingToTrim(s: string)
    requires s != "" ==> !IsSpace(s[0]) && !IsSpace(s[|s| - 1])
    ensures Trim(s) == s
  {
  }

  lemma IntTextIsPlain(i: int)
    ensures var s := IntText(i); s != "" && forall k | 0 <= k < |s| :: s[k] == '-' || '0' <= s[k] <= '9'
    ensures Trim(IntText(i)) == IntText(i)
  {
    NothingToTrim(IntText(i));
  }

  predicate OnePiece(kind: Kind) {
    !kind.List? && !kind.Secret?
  }

  lemma ReadsBack(kind: Kind, v: Value, addresses: Addresses)
    requires OnePiece(kind) && Check(kind, v, addresses).Ok?
    ensures Read(kind, Display(v), addresses) == Ok(v)
  {
    hide ParseInt, IntText, Trim, IsUrl;
    if kind.Int? {
      IntTextIsPlain(v.number);
      IntRoundTrip(v.number);
    }
  }

  /** A value of one piece, printed and read back, is the value it was: every integer of 64 bits included. */
  lemma OnePieceRoundTrip(kind: Kind, v: Value, addresses: Addresses)
    requires OnePiece(kind) && Check(kind, v, addresses).Ok?
    ensures Parse(kind, Display(v), addresses) == Ok(v)
  {
    hide Read, Display, Check;
    ReadsBack(kind, v, addresses);
  }

  /** Numbers are printed with a sign only below zero, and with no leading zero. */
  lemma {:induction false} PrintedPlainly(n: nat)
    ensures NatText(n)[0] == '0' <==> n == 0
    ensures n == 0 ==> NatText(n) == "0"
    ensures var i: int := n; IntText(i) == NatText(n) && (i > 0 ==> IntText(-i) == "-" + NatText(n))
    decreases n
  {
    if n >= 10 {
      PrintedPlainly(n / 10);
    }
  }

  /** How numbers may be written: digits, leading zeros among them, after at most one sign, and within 64 bits. */
  lemma IntegersAreRead(digits: string)
    requires digits != "" && AllDigits(digits)
    ensures var n: int := NatOf(digits);
            && ParseInt(digits) == ParseInt("+" + digits) == (if n < 0x8000_0000_0000_0000 then Some(n) else None)
            && ParseInt("-" + digits) == (if n <= 0x8000_0000_0000_0000 then Some(-n) else None)
            && AllDigits("0" + digits) && NatOf("0" + digits) == n
  {
    assert ("+" + digits)[1..] == digits && ("-" + digits)[1..] == digits;
    LeadingZero(digits);
  }

  lemma {:induction false} LeadingZero(digits: string)
    requires AllDigits(digits)
    ensures AllDigits("0" + digits) && NatOf("0" + digits) == NatOf(digits)
    decreases |digits|
  {
    if digits != "" {
      var whole := "0" + digits;
      assert whole[..|whole| - 1] == "0" + digits[..|digits| - 1];
      LeadingZero(digits[..|digits| - 1]);
    }
  }

  /** The words a switch is set with, and no others. */
  lemma SwitchWords(text: string, addresses: Addresses)
    ensures Parse(Bool, text, addresses) ==
            if text in {"true", "on"} then Ok(BoolValue(true))
            else if text in {"false", "off"} then Ok(BoolValue(false))
            else Err(NotABoolean)
  {
  }

  /** What is read satisfies what is asked of the kind: item by item for a list. */
  lemma ParsedIsChecked(kind: Kind, text: string, addresses: Addresses)
    requires Parse(kind, text, addresses).Ok?
    ensures Check(kind, Parse(kind, text, addresses).value, addresses).Ok?
  {
  }

  lemma {:induction false} ParsedItemsAreChecked(item: Kind, parts: seq<string>, addresses: Addresses)
    requires ParseAll(item, parts, addresses).Ok?
    ensures CheckAll(item, ParseAll(item, parts, addresses).value, addresses).Ok?
    decreases |parts|
  {
    if parts != [] {
      ParsedIsChecked(item, parts[0], addresses);
      ParsedItemsAreChecked(item, parts[1..], addresses);
      var first := Parse(item, parts[0], addresses).value;
      var rest := ParseAll(item, parts[1..], addresses).value;
      assert ([first] + rest)[1..] == rest;
    }
  }

  // ----- splitting a list -----

  predicate NoComma(s: string) {
    forall i | 0 <= i < |s| :: s[i] != ','
  }

  lemma {:induction false} JoinSplit(s: string)
    ensures Join(Split(s)) == s
    ensures forall part | part in Split(s) :: NoComma(part)
    decreases |s|
  {
    if s != "" {
      var rest := Split(s[1..]);
      JoinSplit(s[1..]);
      assert s == [s[0]] + s[1..];
      if s[0] == ',' {
        assert ([""] + rest)[1..] == rest;
      } else {
        var first := [s[0]] + rest[0];
        assert ([first] + rest[1..])[1..] == rest[1..];
        assert NoComma(rest[0]);
      }
    }
  }

  lemma {:induction false} SplitOne(s: string)
    requires NoComma(s)
    ensures Split(s) == [s]
    decreases |s|
  {
    if s != "" {
      SplitOne(s[1..]);
      assert [s[0]] + s[1..] == s;
    }
  }

  lemma {:induction false} SplitPrefix(s: string, t: string)
    requires NoComma(s)
    ensures Split(s + "," + t) == [s] + Split(t)
    decreases |s|
  {
    var whole := s + "," + t;
    if s == "" {
      assert whole[1..] == t;
    } else {
      SplitPrefix(s[1..], t);
      assert whole[1..] == s[1..] + "," + t;
      assert [s[0]] + s[1..] == s;
    }
  }

  lemma {:induction false} SplitJoin(parts: seq<string>)
    requires parts != [] && forall part | part in parts :: NoComma(part)
    ensures Split(Join(parts)) == parts
    decreases |parts|
  {
    if |parts| == 1 {
      SplitOne(parts[0]);
    } else {
      SplitPrefix(parts[0], Join(parts[1..]));
      SplitJoin(parts[1..]);
      assert parts == [parts[0]] + parts[1..];
    }
  }

  /** Cutting the parts shorter shortens the whole, unless it cuts nothing. */
  lemma {:induction false} JoinItems(parts: seq<string>)
    ensures |Join(Items(parts))| <= |Join(parts)|
    ensures |Join(Items(parts))| == |Join(parts)| ==> Items(parts) == parts
    decreases |parts|
  {
    hide Item;
    if |parts| > 1 {
      JoinItems(parts[1..]);
      assert Items(parts)[1..] == Items(parts[1..]);
      assert parts == [parts[0]] + parts[1..] && Items(parts) == [Item(parts[0])] + Items(parts[1..]);
    }
  }

  /** What the items of a list must be for the list to read back as it was printed. */
  ghost predicate Plain(parts: seq<string>) {
    && parts != [""]
    && !Wrapped(Join(parts), '[', ']')
    && forall part | part in parts :: NoComma(part) && Trim(part) == part && !Wrapped(part, '"', '"')
  }

  lemma ItemKeeps(part: string)
    ensures Item(part) == part <==> Trim(part) == part && !Wrapped(part, '"', '"')
  {
  }

  lemma {:induction false} JoinEnds(parts: seq<string>)
    requires parts != [] && parts != [""]
    requires forall part | part in parts :: Trim(part) == part
    ensures Join(parts) != "" && !IsSpace(Join(parts)[0]) && !IsSpace(Join(parts)[|Join(parts)| - 1])
    decreases |parts|
  {
    assert parts[0] in parts;
    if parts[0] != "" {
      TrimmedEnds(parts[0]);
    }
    if |parts| > 1 {
      if parts[1..] != [""] {
        JoinEnds(parts[1..]);
      }
    } else {
      assert parts == [parts[0]];
    }
  }

  lemma TrimmedEnds(s: string)
    requires Trim(s) == s && s != ""
    ensures !IsSpace(s[0]) && !IsSpace(s[|s| - 1])
  {
  }

  /** A list of texts, printed and split again, is the list it was: exactly when its items are plain. */
  lemma ListsSplitBackIffPlain(parts: seq<string>)
    ensures SplitList(Join(parts)) == parts <==> Plain(parts)
  {
    var text := Join(parts);
    var inner := Inner(text);
    if Plain(parts) && parts != [] {
      JoinEnds(parts);
      NothingToTrim(text);
      assert inner == text;
      SplitJoin(parts);
      forall i | 0 <= i < |parts| ensures Item(parts[i]) == parts[i] {
        assert parts[i] in parts;
        ItemKeeps(parts[i]);
      }
      assert Items(parts) == parts;
    }
    if SplitList(text) == parts && parts != [] {
      JoinSplit(inner);
      JoinItems(Split(inner));
      assert inner == text;
      forall part | part in parts ensures NoComma(part) && Trim(part) == part && !Wrapped(part, '"', '"') {
        var i :| 0 <= i < |parts| && parts[i] == part;
        assert Items(Split(inner))[i] == Item(Split(inner)[i]);
        ItemKeeps(part);
      }
    }
  }

  // ----- lists written by hand -----

  /** Trimming cuts white space from both ends, and all of it. */
  lemma TrimCuts(s: string) returns (a: string, b: string)
    ensures s == a + Trim(s) + b && Blank(a) && Blank(b)
    ensures Trim(s) != "" ==> !IsSpace(Trim(s)[0]) && !IsSpace(Trim(s)[|Trim(s)| - 1])
  {
    hide IsSpace;
    a := LeftCut(s);
    b := RightCut(TrimLeft(s));
  }

  lemma {:induction false} LeftCut(s: string) returns (a: string)
    ensures s == a + TrimLeft(s) && Blank(a)
    ensures TrimLeft(s) != "" ==> !IsSpace(TrimLeft(s)[0])
    decreases |s|
  {
    hide IsSpace;
    a := "";
    if s != "" && IsSpace(s[0]) {
      a := LeftCut(s[1..]);
      a := [s[0]] + a;
      assert s == [s[0]] + s[1..];
    }
  }

  lemma {:induction false} RightCut(s: string) returns (b: string)
    ensures s == TrimRight(s) + b && Blank(b)
    ensures TrimRight(s) != "" ==> TrimRight(s)[0] == s[0] && !IsSpace(TrimRight(s)[|TrimRight(s)| - 1])
    decreases |s|
  {
    hide IsSpace;
    b := "";
    if s != "" && IsSpace(s[|s| - 1]) {
      b := RightCut(s[..|s| - 1]);
      b := b + [s[|s| - 1]];
      assert s == s[..|s| - 1] + [s[|s| - 1]];
    }
  }

  lemma {:induction false} TrimPadded(a: string, core: string, b: string)
    requires Blank(a) && Blank(b) && core != "" && !IsSpace(core[0]) && !IsSpace(core[|core| - 1])
    ensures Trim(a + core + b) == core
    decreases |a| + |b|
  {
    hide IsSpace;
    if a != "" {
      assert (a + core + b)[1..] == a[1..] + core + b;
      TrimPadded(a[1..], core, b);
    } else if b != "" {
      var whole, front := core + b, core + b[..|b| - 1];
      assert a + core + b == whole && whole[..|whole| - 1] == front && a + core + b[..|b| - 1] == front;
      TrimPadded(a, core, b[..|b| - 1]);
    } else {
      assert a + core + b == core;
    }
  }

  /** A text in quotes, with white space around them. */
  function Quoted(a: string, text: string, b: string): string {
    a + ("\"" + text + "\"") + b
  }

  lemma QuotedItem(a: string, text: string, b: string)
    requires Blank(a) && Blank(b) && NoComma(text)
    ensures Item(Quoted(a, text, b)) == text && NoComma(Quoted(a, text, b)) && !Blank(Quoted(a, text, b))
  {
    var core := "\"" + text + "\"";
    TrimPadded(a, core, b);
    assert core[1..|core| - 1] == text;
    assert !IsSpace(Quoted(a, text, b)[|a|]);
  }

  /**
   * A list written by hand, in brackets or not, with white space anywhere around brackets and
   * quotes: texts in quotes without commas read as exactly those texts, whatever else they hold.
   */
  lemma QuotedListsReadBack(texts: seq<string>, parts: seq<string>, a: string, b: string)
    requires texts != [] && |parts| == |texts| && Blank(a) && Blank(b)
    requires forall i | 0 <= i < |texts| ::
               NoComma(texts[i]) && exists l, r :: Blank(l) && Blank(r) && parts[i] == Quoted(l, texts[i], r)
    ensures SplitList(a + ("[" + Join(parts) + "]") + b) == texts
    ensures Trim(Join(parts)) == Join(parts) ==> SplitList(Join(parts)) == texts
  {
    hide Quoted, Item, Trim;
    forall i | 0 <= i < |texts| ensures Item(parts[i]) == texts[i] && NoComma(parts[i]) && !Blank(parts[i]) {
      var l, r :| Blank(l) && Blank(r) && parts[i] == Quoted(l, texts[i], r);
      QuotedItem(l, texts[i], r);
    }
    SplitJoin(parts);
    assert Items(parts) == texts;
    var text := Join(parts);
    FirstOfQuoted(parts, texts);
    NotBlank(parts[0], text);
    InBrackets(a, text, b);
    assert Trim(text) == text ==> Inner(text) == text;
  }

  lemma NotBlank(part: string, text: string)
    requires part <= text && !Blank(part)
    ensures Trim(text) != ""
  {
    var x, y := TrimCuts(text);
  }

  lemma InBrackets(a: string, text: string, b: string)
    requires Blank(a) && Blank(b)
    ensures Inner(a + ("[" + text + "]") + b) == text
  {
    hide Trim;
    var core := "[" + text + "]";
    TrimPadded(a, core, b);
    assert core[1..|core| - 1] == text;
  }

  /** A quoted part begins with a quote or white space. */
  lemma FirstOfQuoted(parts: seq<string>, texts: seq<string>)
    requires parts != [] && |parts| == |texts|
    requires exists l, r :: Blank(l) && Blank(r) && parts[0] == Quoted(l, texts[0], r)
    ensures !Wrapped(Join(parts), '[', ']') && parts[0] <= Join(parts)
  {
    var l, r :| Blank(l) && Blank(r) && parts[0] == Quoted(l, texts[0], r);
    assert Join(parts)[0] == parts[0][0];
    assert parts[0][0] == if l == "" then '"' else l[0];
  }

  // ----- lists -----

  function Displays(items: seq<Value>): (r: seq<string>)
    ensures |r| == |items|
  {
    seq(|items|, i requires 0 <= i < |items| => Display(items[i]))
  }

  lemma {:induction false} DisplaysParse(item: Kind, items: seq<Value>, addresses: Addresses)
    requires OnePiece(item) && CheckAll(item, items, addresses).Ok?
    ensures ParseAll(item, Displays(items), addresses) == Ok(items)
    decreases |items|
  {
    if items != [] {
      OnePieceRoundTrip(item, items[0], addresses);
      DisplaysParse(item, items[1..], addresses);
      assert Displays(items)[1..] == Displays(items[1..]);
      assert items == [items[0]] + items[1..];
    }
  }

  /** Kinds whose values are kept as their text. */
  predicate IsText(kind: Kind) {
    kind.Enum? || kind.String? || kind.Url? || kind.Path? || kind.SocketAddr?
  }

  lemma {:induction false} TextsParseToThemselves(item: Kind, parts: seq<string>, items: seq<Value>,
                                                  addresses: Addresses)
    requires IsText(item) && ParseAll(item, parts, addresses) == Ok(items)
    ensures Displays(items) == parts
    decreases |parts|
  {
    if parts == [] {
      assert items == [];
    } else {
      var rest := ParseAll(item, parts[1..], addresses).value;
      assert items[1..] == rest;
      TextsParseToThemselves(item, parts[1..], rest, addresses);
      assert Parse(item, parts[0], addresses).value == StringValue(parts[0]);
      assert items[0] == StringValue(parts[0]);
      assert Displays(items)[1..] == Displays(rest);
      assert Displays(items) == [Displays(items)[0]] + Displays(items)[1..];
      assert parts == [parts[0]] + parts[1..];
    }
  }

  lemma {:induction false} CheckedEach(item: Kind, items: seq<Value>, addresses: Addresses)
    requires CheckAll(item, items, addresses).Ok?
    ensures forall v | v in items :: Check(item, v, addresses).Ok?
    decreases |items|
  {
    if items != [] {
      CheckedEach(item, items[1..], addresses);
      assert items == [items[0]] + items[1..];
    }
  }

  /** Printed booleans and integers are plain. */
  lemma NumbersArePlain(item: Kind, items: seq<Value>, addresses: Addresses)
    requires (item.Bool? || item.Int?) && CheckAll(item, items, addresses).Ok?
    ensures Plain(Displays(items))
  {
    hide IsSpace, Trim, IntText;
    CheckedEach(item, items, addresses);
    var texts := Displays(items);
    forall i | 0 <= i < |texts|
      ensures texts[i] != ""
      ensures texts[i][0] != '[' && NoComma(texts[i]) && Trim(texts[i]) == texts[i] && !Wrapped(texts[i], '"', '"')
    {
      assert items[i] in items;
      if item.Int? {
        IntTextIsPlain(items[i].number);
      } else {
        BooleanIsPlain();
      }
    }
    assert texts != [] ==> Join(texts)[0] == texts[0][0];
  }

  lemma BooleanIsPlain()
    ensures Trim("true") == "true" && Trim("false") == "false"
  {
    NothingToTrim("true");
    NothingToTrim("false");
  }

  lemma ParsedList(item: Kind, text: string, items: seq<Value>, addresses: Addresses)
    requires CheckAll(item, items, addresses).Ok?
    ensures Parse(List(item), text, addresses) == Ok(ListValue(items)) <==>
        ParseAll(item, SplitList(text), addresses) == Ok(items)
  {
    hide SplitList;
  }

  /**
   * A list, printed and read back, is the list it was exactly when its printed items are plain:
   * no comma, no white space or quotes around one, no brackets around the whole, and not a
   * single empty item.
   */
  lemma ListRoundTripIffPlain(item: Kind, items: seq<Value>, addresses: Addresses)
    requires OnePiece(item) && CheckAll(item, items, addresses).Ok?
    ensures Parse(List(item), Display(ListValue(items)), addresses) == Ok(ListValue(items)) <==> Plain(Displays(items))
  {
    hide Plain, SplitList, Join, Parse, Read;
    var texts := Displays(items);
    assert Display(ListValue(items)) == Join(texts);
    ListsSplitBackIffPlain(texts);
    DisplaysParse(item, items, addresses);
    ParsedList(item, Join(texts), items, addresses);
    if IsText(item) {
      if ParseAll(item, SplitList(Join(texts)), addresses) == Ok(items) {
        TextsParseToThemselves(item, SplitList(Join(texts)), items, addresses);
      }
    } else {
      NumbersArePlain(item, items, addresses);
    }
  }

  function Texts(texts: seq<string>): (r: seq<Value>)
    ensures |r| == |texts|
  {
    seq(|texts|, i requires 0 <= i < |texts| => StringValue(texts[i]))
  }

  lemma {:induction false} UrlsCheck(urls: seq<string>, addresses: Addresses)
    requires forall url | url in urls :: IsUrl(url)
    ensures CheckAll(Url, Texts(urls), addresses).Ok? && Displays(Texts(urls)) == urls
    decreases |urls|
  {
    if urls != [] {
      assert urls[0] in urls;
      UrlsCheck(urls[1..], addresses);
      assert Texts(urls)[1..] == Texts(urls[1..]);
    }
  }

  predicate EndsInSpace(s: string) {
    s != "" && IsSpace(s[|s| - 1])
  }

  /** For a list of URLs that leaves commas, and white space at the end of one. */
  lemma UrlListRoundTrip(urls: seq<string>, addresses: Addresses)
    requires forall url | url in urls :: IsUrl(url)
    ensures var v := ListValue(Texts(urls));
            Parse(List(Url), Display(v), addresses) == Ok(v) <==>
                forall url | url in urls :: NoComma(url) && !EndsInSpace(url)
  {
    hide IsSpace, Trim, Parse, Display, IsUrl;
    UrlsCheck(urls, addresses);
    ListRoundTripIffPlain(Url, Texts(urls), addresses);
    forall url | url in urls ensures |url| > 7 && url[0] == 'h' && (Trim(url) == url <==> !IsSpace(url[|url| - 1])) {
      UrlEnds(url);
    }
    if urls != [] {
      assert urls[0] in urls;
      assert Join(urls)[0] == urls[0][0];
    }
  }

  lemma UrlEnds(s: string)
    requires IsUrl(s)
    ensures |s| > 7 && s[0] == 'h' && (Trim(s) == s <==> !IsSpace(s[|s| - 1]))
  {
    assert !IsSpace('h');
    assert "http://"[0] == 'h' && "https://"[0] == 'h';
  }

  /** A URL with a comma in it comes back as something else, and so does a single empty text. */
  lemma ListsThatDoNotReadBack(addresses: Addresses)
    ensures IsUrl("http://a,b")
    ensures var v := ListValue(Texts(["http://a,b"])); Parse(List(Url), Display(v), addresses) != Ok(v)
    ensures var v := ListValue(Texts([""])); Parse(List(String(false)), Display(v), addresses) != Ok(v)
  {
    hide Parse, Display, Plain;
    var commas := ["http://a,b"];
    assert "http://a,b"[8] == ',' && "http://" <= "http://a,b";
    UrlListRoundTrip(commas, addresses);
    assert commas[0] in commas && !NoComma("http://a,b");
    AnEmptyText(addresses);
  }

  lemma AnEmptyText(addresses: Addresses)
    ensures var v := ListValue(Texts([""])); Parse(List(String(false)), Display(v), addresses) != Ok(v)
  {
    hide Parse, Display;
    var empty := Texts([""]);
    assert empty[1..] == [];
    assert CheckAll(String(false), empty, addresses).Ok?;
    assert Display(StringValue("")) == "" by {
      EmptyDisplay();
    }
    assert Displays(empty) == [""];
    ListRoundTripIffPlain(String(false), empty, addresses);
  }

  lemma EmptyDisplay()
    ensures Display(StringValue("")) == ""
  {
  }
}
