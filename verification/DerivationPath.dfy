/** accounts/hd.go: parsing and printing of hierarchical wallet derivation paths, such as m/44'/60'/0'/0. */
module DerivationPaths {
  import opened Options

  const HARDENED: nat := 0x8000_0000
  const MAX_UINT32: nat := 0xffff_ffff

  type Component = n: nat | n <= MAX_UINT32

  type Path = seq<Component>

  const DEFAULT_ROOT: Path := [HARDENED + 44, HARDENED + 60, HARDENED, 0]

  datatype Error = EmptyPath | AmbiguousPath | InvalidComponent(index: nat) | OutOfRange(index: nat)

  datatype Result<T> = Ok(value: T) | Err(error: Error)

  // ---------------------------------------------------------------- strings

  /** unicode.IsSpace */
  predicate IsSpace(c: char)
  {
    var code := c as int;
    || 0x09 <= code <= 0x0d || code == 0x20 || code == 0x85 || code == 0xa0 || code == 0x1680
    || 0x2000 <= code <= 0x200a || code == 0x2028 || code == 0x2029 || code == 0x202f || code == 0x205f
    || code == 0x3000
  }

  /** strings.TrimSpace */
  function Trim(s: string): (r: string)
    decreases |s|
  {
    if s == "" then s
    else if IsSpace(s[0]) then Trim(s[1..])
    else if IsSpace(s[|s| - 1]) then Trim(s[..|s| - 1])
    else s
  }

  predicate AllSpaces(s: string)
  {
    forall i :: 0 <= i < |s| ==> IsSpace(s[i])
  }

  /** `s` is `t` with spaces around it. */
  ghost predicate Padded(s: string, t: string, front: string, back: string)
  {
    s == front + t + back && AllSpaces(front) && AllSpaces(back)
  }

  lemma PaddedFront(c: char, s: string, t: string, front: string, back: string)
    requires IsSpace(c) && Padded(s, t, front, back)
    ensures Padded([c] + s, t, [c] + front, back)
  {
    assert [c] + (front + t + back) == [c] + front + t + back;
  }

  lemma PaddedBack(c: char, s: string, t: string, front: string, back: string)
    requires IsSpace(c) && Padded(s, t, front, back)
    ensures Padded(s + [c], t, front, back + [c])
  {
    assert front + t + back + [c] == front + t + (back + [c]);
  }

  /** What is trimmed is spaces at the two ends, and all of them. */
  lemma {:induction false} TrimIs(s: string) returns (front: string, back: string)
    ensures Padded(s, Trim(s), front, back)
    ensures Trim(s) == "" || (!IsSpace(Trim(s)[0]) && !IsSpace(Trim(s)[|Trim(s)| - 1]))
    decreases |s|
  {
    if s != "" && IsSpace(s[0]) {
      var rest := s[1..];
      front, back := TrimIs(rest);
      PaddedFront(s[0], rest, Trim(rest), front, back);
      assert s == [s[0]] + rest;
      front := [s[0]] + front;
    } else if s != "" && IsSpace(s[|s| - 1]) {
      var last, rest := s[|s| - 1], s[..|s| - 1];
      front, back := TrimIs(rest);
      PaddedBack(last, rest, Trim(rest), front, back);
      assert s == rest + [last];
      back := back + [last];
    } else {
      front, back := "", "";
      assert "" + s + "" == s;
    }
  }

  lemma {:induction false} TrimFront(front: string, s: string)
    requires AllSpaces(front)
    ensures Trim(front + s) == Trim(s)
    decreases |front|
  {
    if front == "" {
      assert front + s == s;
    } else {
      assert (front + s)[0] == front[0] && (front + s)[1..] == front[1..] + s;
      TrimFront(front[1..], s);
    }
  }

  lemma {:induction false} TrimBack(s: string, back: string)
    requires AllSpaces(back)
    ensures Trim(s + back) == Trim(s)
    decreases |s|, |back|
  {
    if back == "" {
      assert s + back == s;
    } else if s == "" {
      assert s + back == back + "";
      TrimFront(back, "");
    } else if IsSpace(s[0]) {
      assert (s + back)[1..] == s[1..] + back;
      TrimBack(s[1..], back);
    } else {
      var n := |back| - 1;
      assert (s + back)[..|s + back| - 1] == s + back[..n];
      TrimBack(s, back[..n]);
    }
  }

  /** strings.Split at slashes */
  function Split(s: string): (r: seq<string>)
    ensures 0 < |r|
  {
    if s == "" then [""] else Glued(s[0], Split(s[1..]))
  }

  /** A character put in front: a slash starts a new piece, any other joins the first. */
  function Glued(c: char, rest: seq<string>): (r: seq<string>)
    requires 0 < |rest|
    ensures 0 < |r|
  {
    if c == '/' then [""] + rest else [[c] + rest[0]] + rest[1..]
  }

  lemma GluedConcat(c: char, rest: seq<string>, more: seq<string>)
    requires 0 < |rest|
    ensures Glued(c, rest + more) == Glued(c, rest) + more
  {
    var all := rest + more;
    assert all[0] == rest[0] && all[1..] == rest[1..] + more;
    assert [""] + all == [""] + rest + more;
    assert [[c] + rest[0]] + (rest[1..] + more) == [[c] + rest[0]] + rest[1..] + more;
  }

  lemma {:induction false} SplitWhole(s: string)
    requires '/' !in s
    ensures Split(s) == [s]
  {
    if s != "" {
      SplitWhole(s[1..]);
      assert [s[0]] + s[1..] == s;
    }
  }

  lemma {:induction false} SplitConcat(a: string, b: string)
    ensures Split(a + "/" + b) == Split(a) + Split(b)
  {
    var s := a + "/" + b;
    if a == "" {
      assert s[1..] == b;
    } else {
      SplitConcat(a[1..], b);
      assert s[0] == a[0] && s[1..] == a[1..] + "/" + b;
      GluedConcat(a[0], Split(a[1..]), Split(b));
    }
  }

  /** Neither a space nor one of the marks of a path. */
  predicate Plain(c: char)
  {
    !IsSpace(c) && c != '/' && c != '\''
  }

  function Digit(d: nat): (c: char)
    requires d < 10
    ensures Plain(c) && '0' <= c <= '9' && c as int - '0' as int == d
  {
    ('0' as int + d) as char
  }

  /** The decimal numeral of a number. */
  function Numeral(n: nat): (s: string)
  {
    if n < 10 then [Digit(n)] else Numeral(n / 10) + [Digit(n % 10)]
  }

  lemma {:induction false} NumeralIsPlain(n: nat)
    ensures Numeral(n) != "" && forall i :: 0 <= i < |Numeral(n)| ==> Plain(Numeral(n)[i])
  {
    if 10 <= n { NumeralIsPlain(n / 10); }
  }

  /** The value of a string of digits, by position. */
  function Value(s: string): (v: int)
  {
    if s == "" then 0 else Value(s[..|s| - 1]) * 10 + (s[|s| - 1] as int - '0' as int)
  }

  /** Digits only, and no leading zero that would mark another base. */
  predicate IsDecimal(s: string)
  {
    s != "" && (forall i :: 0 <= i < |s| ==> '0' <= s[i] <= '9') && (s[0] == '0' ==> |s| == 1)
  }

  lemma {:induction false} NumeralIs(n: nat)
    ensures IsDecimal(Numeral(n)) && Value(Numeral(n)) == n && (0 < n ==> Numeral(n)[0] != '0')
  {
    if 10 <= n {
      NumeralIs(n / 10);
      var s := Numeral(n);
      assert s[..|s| - 1] == Numeral(n / 10);
    } else {
      assert [Digit(n)][..0] == "";
    }
  }

  /** big.Int.SetString with base 0; all that is asked of it is that it reads decimal numerals. */
  type Reader = string -> Option<int>

  ghost predicate ReadsDecimal(reader: Reader)
  {
    forall s: string :: IsDecimal(s) ==> reader(s) == Some(Value(s))
  }

  // ---------------------------------------------------------------- specification

  function Hardened(c: string): bool
  {
    c != "" && c[|c| - 1] == '\''
  }

  /** One component of a path. */
  function ParsedComponent(reader: Reader, text: string, index: nat): (r: Result<Component>)
  {
    var c := Trim(text);
    if Hardened(c) then InRange(reader(Trim(c[..|c| - 1])), HARDENED, index) else InRange(reader(c), 0, index)
  }

  function InRange(value: Option<int>, offset: nat, index: nat): (r: Result<Component>)
  {
    if value.None? then Err(InvalidComponent(index))
    else if value.value < 0 || MAX_UINT32 < offset + value.value then Err(OutOfRange(index))
    else Ok(offset + value.value)
  }

  /** The components from the one numbered `index`, up to the first that is wrong. */
  function ParsedAll(reader: Reader, texts: seq<string>, index: nat): (r: Result<Path>)
    ensures r.Ok? ==> |r.value| == |texts|
  {
    if texts == [] then Ok([])
    else
      var first := ParsedComponent(reader, texts[0], index);
      if first.Err? then Err(first.error)
      else
        var rest := ParsedAll(reader, texts[1..], index + 1);
        if rest.Err? then rest else Ok([first.value] + rest.value)
  }

  function After(start: Path, r: Result<Path>): (whole: Result<Path>)
  {
    if r.Err? then r else Ok(start + r.value)
  }

  function Parsed(reader: Reader, text: string): (r: Result<Path>)
  {
    var texts := Split(text);
    var first := Trim(texts[0]);
    if first == "" then Err(AmbiguousPath)
    else
      var absolute := first == "m";
      var rest := if absolute then texts[1..] else texts;
      if rest == [] then Err(EmptyPath)
      else
        After(if absolute then [] else DEFAULT_ROOT, ParsedAll(reader, rest, 0))
  }

  function Shown(c: Component): (s: string)
  {
    if HARDENED <= c then Numeral(c - HARDENED) + "'" else Numeral(c)
  }

  function Printed(p: Path): (s: string)
  {
    if p == [] then "m" else Printed(p[..|p| - 1]) + "/" + Shown(p[|p| - 1])
  }

  // ---------------------------------------------------------------- the code

  method ParseDerivationPath(reader: Reader, text: string) returns (r: Result<Path>)
    ensures r == Parsed(reader, text)
  {
    var result: Path := [];
    var components := Split(text);
    if Trim(components[0]) == "" {
      return Err(AmbiguousPath);
    } else if Trim(components[0]) == "m" {
      components := components[1..];
    } else {
      result := result + DEFAULT_ROOT;
      assert result == DEFAULT_ROOT;
    }
    if |components| == 0 {
      return Err(EmptyPath);
    }
    r := ParseComponents(reader, result, components);
  }

  /** The loop over the components. */
  method ParseComponents(reader: Reader, start: Path, components: seq<string>) returns (r: Result<Path>)
    ensures r == After(start, ParsedAll(reader, components, 0))
  {
    var result: Path := start;
    for i := 0 to |components|
      invariant After(result, ParsedAll(reader, components[i..], i)) == After(start, ParsedAll(reader, components, 0))
    {
      assert components[i..][0] == components[i] && components[i..][1..] == components[i + 1..];
      var component := Trim(components[i]);
      var value: nat := 0;
      if Hardened(component) {
        value := HARDENED;
        component := Trim(component[..|component| - 1]);
      }
      var big := reader(component);
      if big.None? {
        return Err(InvalidComponent(i));
      }
      var max := MAX_UINT32 - value;
      if big.value < 0 || max < big.value {
        return Err(OutOfRange(i));
      }
      value := value + big.value;
      AfterMore(result, value, ParsedAll(reader, components[i + 1..], i + 1));
      result := result + [value];
    }
    assert components[|components|..] == [] && result + [] == result;
    return Ok(result);
  }

  lemma AfterMore(start: Path, c: Component, r: Result<Path>)
    ensures After(start, After([c], r)) == After(start + [c], r)
  {
    if r.Ok? { assert start + ([c] + r.value) == start + [c] + r.value; }
  }

  method ToString(path: Path) returns (s: string)
    ensures s == Printed(path)
  {
    s := "m";
    for i := 0 to |path|
      invariant s == Printed(path[..i])
    {
      assert path[..i + 1][..i] == path[..i];
      var component, hardened := path[i], false;
      if HARDENED <= component {
        component, hardened := component - HARDENED, true;
      }
      s := s + "/" + Numeral(component);
      if hardened {
        s := s + "'";
      }
    }
    assert path[..|path|] == path;
  }

  // ---------------------------------------------------------------- round trips

  lemma TrimKeeps(s: string)
    requires s != "" && !IsSpace(s[0]) && !IsSpace(s[|s| - 1])
    ensures Trim(s) == s
  {
  }

  lemma ComponentRoundTrip(reader: Reader, c: Component, index: nat)
    requires ReadsDecimal(reader)
    ensures ParsedComponent(reader, Shown(c), index) == Ok(c)
  {
    var n := if HARDENED <= c then c - HARDENED else c;
    var body := Numeral(n);
    NumeralIs(n);
    NumeralIsPlain(n);
    TrimKeeps(body);
    TrimKeeps(Shown(c));
    if HARDENED <= c { assert Shown(c)[..|Shown(c)| - 1] == body; }
  }

  function AllShown(p: Path): (r: seq<string>)
  {
    if p == [] then [] else [Shown(p[0])] + AllShown(p[1..])
  }

  lemma {:induction false} AllShownConcat(p: Path, c: Component)
    ensures AllShown(p + [c]) == AllShown(p) + [Shown(c)]
  {
    if p != [] {
      AllShownConcat(p[1..], c);
      assert (p + [c])[1..] == p[1..] + [c];
    } else {
      assert p + [c] == [c] && [c][1..] == p;
    }
  }

  lemma PrintedMore(p: Path, c: Component)
    ensures Printed(p + [c]) == Printed(p) + "/" + Shown(c)
  {
    assert (p + [c])[..|p|] == p;
  }

  lemma Regrouped(texts: seq<string>, text: string)
    ensures ["m"] + texts + [text] == ["m"] + (texts + [text])
  {
  }

  lemma NoSlash(c: Component)
    ensures '/' !in Shown(c)
  {
    NumeralIsPlain(if HARDENED <= c then c - HARDENED else c);
  }

  lemma SplitsMore(p: Path, c: Component)
    requires Split(Printed(p)) == ["m"] + AllShown(p)
    ensures Split(Printed(p + [c])) == ["m"] + AllShown(p + [c])
  {
    PrintedMore(p, c);
    SplitConcat(Printed(p), Shown(c));
    NoSlash(c);
    SplitWhole(Shown(c));
    AllShownConcat(p, c);
    Regrouped(AllShown(p), Shown(c));
  }

  /** Splitting the text of a path gives its components back. */
  lemma {:induction false} PrintedSplits(p: Path)
    ensures Split(Printed(p)) == ["m"] + AllShown(p)
  {
    if p == [] {
      SplitWhole("m");
    } else {
      var init, last := p[..|p| - 1], p[|p| - 1];
      PrintedSplits(init);
      SplitsMore(init, last);
      assert init + [last] == p;
    }
  }

  lemma {:induction false} AllShownAt(p: Path, i: nat)
    requires i < |p|
    ensures |AllShown(p)| == |p| && AllShown(p)[i] == Shown(p[i])
  {
    if 0 < i {
      AllShownAt(p[1..], i - 1);
    } else if 1 < |p| {
      AllShownAt(p[1..], 0);
    }
  }

  /** What is printed for a component, between the slashes: the decimal numeral of its number, and a mark if it is
      hardened. */
  lemma PrintedComponent(p: Path, i: nat)
    requires i < |p|
    ensures |Split(Printed(p))| == |p| + 1 && Split(Printed(p))[0] == "m"
    ensures var s := Split(Printed(p))[i + 1];
            if p[i] < HARDENED then IsDecimal(s) && Value(s) == p[i]
            else && s != "" && s[|s| - 1] == '\'' && IsDecimal(s[..|s| - 1])
                 && HARDENED + Value(s[..|s| - 1]) == p[i]
  {
    PrintedSplits(p);
    AllShownAt(p, i);
    var c := p[i];
    NumeralIs(if HARDENED <= c then c - HARDENED else c);
    if HARDENED <= c { assert Shown(c)[..|Shown(c)| - 1] == Numeral(c - HARDENED); }
  }

  lemma {:induction false} AllRoundTrip(reader: Reader, p: Path, index: nat)
    requires ReadsDecimal(reader)
    ensures ParsedAll(reader, AllShown(p), index) == Ok(p)
  {
    if p != [] {
      ComponentRoundTrip(reader, p[0], index);
      AllRoundTrip(reader, p[1..], index + 1);
      assert AllShown(p)[1..] == AllShown(p[1..]);
      assert [p[0]] + p[1..] == p;
    }
  }

  /** Printing a path and parsing it again gives the path back, exactly for the paths that are not empty. */
  lemma RoundTrip(reader: Reader, p: Path)
    requires ReadsDecimal(reader)
    ensures Parsed(reader, Printed(p)) == if p == [] then Err(EmptyPath) else Ok(p)
  {
    PrintedSplits(p);
    AllRoundTrip(reader, p, 0);
    TrimKeeps("m");
    var texts := ["m"] + AllShown(p);
    assert texts[0] == "m" && texts[1..] == AllShown(p);
    assert [] + p == p;
  }

  /** So printing what was parsed, from whatever text, gives a text that parses to the same. */
  lemma PrintingIsCanonical(reader: Reader, text: string)
    requires ReadsDecimal(reader) && Parsed(reader, text).Ok?
    ensures Parsed(reader, text).value != []
    ensures Parsed(reader, Printed(Parsed(reader, text).value)) == Parsed(reader, text)
  {
    RoundTrip(reader, Parsed(reader, text).value);
  }

  /** Two paths print alike only if they are the same. */
  lemma PrintingIsInjective(reader: Reader, p: Path, q: Path)
    requires ReadsDecimal(reader) && Printed(p) == Printed(q)
    ensures p == q
  {
    RoundTrip(reader, p);
    RoundTrip(reader, q);
  }

  /** Spaces around a component do not matter. */
  lemma PaddingIsIgnored(reader: Reader, front: string, text: string, back: string, index: nat)
    requires AllSpaces(front) && AllSpaces(back)
    ensures ParsedComponent(reader, front + text + back, index) == ParsedComponent(reader, text, index)
  {
    TrimBack(front + text, back);
    TrimFront(front, text);
  }

  lemma SingleComponent(reader: Reader, text: string)
    requires '/' !in text
    ensures Parsed(reader, "m/" + text) ==
            var r := ParsedComponent(reader, text, 0); if r.Err? then Err(r.error) else Ok([r.value])
  {
    SplitConcat("m", text);
    SplitWhole("m");
    SplitWhole(text);
    TrimKeeps("m");
    var texts: seq<string> := ["m"] + [text];
    assert "m" + "/" + text == "m/" + text && texts[0] == "m" && texts[1..] == [text];
    var only: seq<string> := [text];
    assert only[1..] == [];
    var r := ParsedComponent(reader, text, 0);
    if r.Ok? {
      assert [r.value] + [] == [r.value];
      assert ParsedAll(reader, only, 0) == Ok([r.value]);
      assert [] + [r.value] == [r.value];
    }
  }

  /** Parsing is not injective: a component that has its hardening bit written out parses like a hardened one. */
  lemma WrittenOutHardening(reader: Reader, n: nat)
    requires ReadsDecimal(reader) && n < HARDENED
    ensures Parsed(reader, "m/" + Numeral(HARDENED + n)) == Ok([HARDENED + n])
    ensures Parsed(reader, "m/" + Shown(HARDENED + n)) == Ok([HARDENED + n])
    ensures "m/" + Numeral(HARDENED + n) != "m/" + Shown(HARDENED + n)
  {
    var a, b := Numeral(HARDENED + n), Shown(HARDENED + n);
    NumeralIs(HARDENED + n);
    NumeralIsPlain(HARDENED + n);
    TrimKeeps(a);
    SingleComponent(reader, a);
    ComponentRoundTrip(reader, HARDENED + n, 0);
    NoSlash(HARDENED + n);
    SingleComponent(reader, b);
    assert b[|b| - 1] == '\'' && ("m/" + b)[|b| + 1] == b[|b| - 1] && ("m/" + a)[|a| + 1] == a[|a| - 1];
  }
}
