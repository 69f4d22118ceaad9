/** Literal block scalars as the chart prints them and as section 8.1 of YAML 1.2.2 reads them. Only
    the line feed breaks lines here. */
module BlockScalar {
  import opened Wrappers

  // ---- lines ----

  predicate OneLine(s: string) {
    forall i :: 0 <= i < |s| ==> s[i] != '\n'
  }

  /** The pieces between line feeds; a text that ends in a line feed has an empty last piece. */
  function Split(s: string): (ls: seq<string>)
    ensures |ls| > 0
    decreases |s|
  {
    if s == "" then [""]
    else
      var rest := Split(s[1..]);
      if s[0] == '\n' then [""] + rest else [[s[0]] + rest[0]] + rest[1..]
  }

  function Join(ls: seq<string>): string
    decreases |ls|
  {
    if ls == [] then ""
    else if |ls| == 1 then ls[0]
    else ls[0] + "\n" + Join(ls[1..])
  }

  lemma {:induction false} JoinSplit(s: string)
    ensures Join(Split(s)) == s
    decreases |s|
  {
    if s != "" {
      JoinSplit(s[1..]);
      var rest := Split(s[1..]);
      var ls := Split(s);
      if s[0] == '\n' {
        assert ls[1..] == rest;
      } else {
        assert ls[1..] == rest[1..];
        assert s == [s[0]] + s[1..];
      }
    }
  }

  lemma {:induction false} SplitOneLine(s: string)
    ensures forall l :: l in Split(s) ==> OneLine(l)
    decreases |s|
  {
    if s != "" {
      SplitOneLine(s[1..]);
      var rest := Split(s[1..]);
      assert forall l :: l in rest[1..] ==> l in rest;
      assert rest[0] in rest;
    }
  }

  lemma {:induction false} SplitLine(l: string, s: string)
    requires OneLine(l)
    ensures Split(l + "\n" + s) == [l] + Split(s)
    decreases |l|
  {
    if l == "" {
      assert (l + "\n" + s)[1..] == s;
    } else {
      assert (l + "\n" + s)[1..] == l[1..] + "\n" + s;
      SplitLine(l[1..], s);
      assert [l[0]] + l[1..] == l;
    }
  }

  lemma {:induction false} SplitOnly(l: string)
    requires OneLine(l)
    ensures Split(l) == [l]
    decreases |l|
  {
    if l != "" {
      SplitOnly(l[1..]);
      assert [l[0]] + l[1..] == l;
    }
  }

  lemma {:induction false} SplitJoin(ls: seq<string>)
    requires ls != [] && forall l :: l in ls ==> OneLine(l)
    ensures Split(Join(ls)) == ls
    decreases |ls|
  {
    if |ls| == 1 {
      SplitOnly(ls[0]);
    } else {
      SplitJoin(ls[1..]);
      SplitLine(ls[0], Join(ls[1..]));
    }
  }

  // ---- printing ----

  function Spaces(n: nat): (s: string)
    ensures |s| == n && forall i :: 0 <= i < n ==> s[i] == ' '
  {
    seq(n, _ => ' ')
  }

  /** strings.Replace(v, "\n", "\n" + pad, -1) */
  function Padded(pad: string, v: string): string
    decreases |v|
  {
    if v == "" then ""
    else (if v[0] == '\n' then "\n" + pad else [v[0]]) + Padded(pad, v[1..])
  }

  /** The template function `indent n`. */
  function Indent(n: nat, v: string): string {
    Spaces(n) + Padded(Spaces(n), v)
  }

  /** The template function `nindent n`. */
  function NIndent(n: nat, v: string): string {
    "\n" + Indent(n, v)
  }

  function PadAll(pad: string, ls: seq<string>): (r: seq<string>)
    ensures |r| == |ls| && forall i :: 0 <= i < |ls| ==> r[i] == pad + ls[i]
  {
    seq(|ls|, i requires 0 <= i < |ls| => pad + ls[i])
  }

  /** The padded lines after the first, each with the line feed before it. */
  function PaddedRest(pad: string, ls: seq<string>): string
    requires ls != []
  {
    if |ls| == 1 then "" else "\n" + Join(PadAll(pad, ls[1..]))
  }

  lemma JoinPadAll(pad: string, ls: seq<string>)
    requires ls != []
    ensures Join(PadAll(pad, ls)) == pad + ls[0] + PaddedRest(pad, ls)
  {
    assert PadAll(pad, ls)[1..] == PadAll(pad, ls[1..]);
  }

  lemma {:induction false} PaddedLines(pad: string, v: string)
    ensures Padded(pad, v) == Split(v)[0] + PaddedRest(pad, Split(v))
    decreases |v|
  {
    if v != "" {
      PaddedLines(pad, v[1..]);
      var rest := Split(v[1..]);
      if v[0] == '\n' {
        assert Split(v)[1..] == rest;
        JoinPadAll(pad, rest);
        calc {
          Padded(pad, v);
          "\n" + pad + (rest[0] + PaddedRest(pad, rest));
          "\n" + (pad + rest[0] + PaddedRest(pad, rest));
        }
      } else {
        assert Split(v)[1..] == rest[1..];
        assert [v[0]] + (rest[0] + PaddedRest(pad, rest)) == ([v[0]] + rest[0]) + PaddedRest(pad, rest);
      }
    }
  }

  /** Indenting a text indents each of its lines, the empty ones and the last one too. */
  lemma IndentLines(n: nat, v: string)
    ensures Split(Indent(n, v)) == PadAll(Spaces(n), Split(v))
  {
    var ls := PadAll(Spaces(n), Split(v));
    PaddedLines(Spaces(n), v);
    JoinPadAll(Spaces(n), Split(v));
    assert Indent(n, v) == Join(ls);
    SplitOneLine(v);
    forall l | l in ls ensures OneLine(l) {
      var i :| 0 <= i < |ls| && l == ls[i];
      assert Split(v)[i] in Split(v);
    }
    SplitJoin(ls);
  }

  // ---- reading ----

  datatype Chomping = Strip | Clip

  function Lead(l: string): (n: nat)
    ensures n <= |l|
    ensures forall i :: 0 <= i < n ==> l[i] == ' '
    ensures n < |l| ==> l[n] != ' '
    decreases |l|
  {
    if l != "" && l[0] == ' ' then 1 + Lead(l[1..]) else 0
  }

  predicate Blank(l: string) {
    Lead(l) == |l|
  }

  /** The auto-detected content indentation (8.1.1.1): that of the first line that is not blank; no
      blank line before it may be longer. Without such a line, the length of the longest line. */
  function Detect(ls: seq<string>, longest: nat): Option<nat>
    decreases |ls|
  {
    if ls == [] then Some(longest)
    else if Blank(ls[0]) then Detect(ls[1..], if |ls[0]| > longest then |ls[0]| else longest)
    else if longest > Lead(ls[0]) then None
    else Some(Lead(ls[0]))
  }

  /** What a line contributes at content indentation `m`; None ends the scalar (8.1.2). */
  function Content(m: nat, l: string): Option<string> {
    if Blank(l) && |l| <= m then Some("")
    else if Lead(l) >= m then Some(l[m..])
    else None
  }

  /** The leading lines that belong to the scalar. */
  function Body(m: nat, ls: seq<string>): (r: seq<string>)
    ensures |r| <= |ls|
    decreases |ls|
  {
    if ls == [] then []
    else match Content(m, ls[0])
      case None => []
      case Some(c) => [c] + Body(m, ls[1..])
  }

  /** Trailing empty lines fall to chomping (8.1.1.2). */
  function DropEmpty(ls: seq<string>): (r: seq<string>)
    ensures |r| <= |ls| && r == ls[..|r|]
    ensures r != [] ==> r[|r| - 1] != ""
    ensures forall i :: |r| <= i < |ls| ==> ls[i] == ""
    decreases |ls|
  {
    if ls == [] then []
    else if ls[|ls| - 1] == "" then DropEmpty(ls[..|ls| - 1])
    else ls
  }

  /** After the scalar only blank lines and less indented comments may follow. */
  predicate TrailComment(l: string) {
    Blank(l) || l[Lead(l)] == '#'
  }

  /** The value of a literal block scalar whose parent has indentation `parent` (-1 at the top), from
      the lines after its header up to the end of the input; the last piece has no line break. None
      stands for an error. */
  function DecodeLiteral(parent: int, chomp: Chomping, ls: seq<string>): Option<string> {
    match Detect(ls, 0)
    case None => None
    case Some(m) =>
      if m <= parent then None
      else
        var body := Body(m, ls);
        if exists i :: |body| <= i < |ls| && !TrailComment(ls[i]) then None
        else
          var kept := DropEmpty(body);
          if kept == [] then Some("")
          else if chomp.Clip? && |kept| < |ls| then Some(Join(kept) + "\n")
          else Some(Join(kept))
  }

  // ---- the two blocks of the chart ----

  const API_VERSION := "apiVersion: " + ("config.diki.extensions." + "gardener.cloud/v1alpha1")
  const KIND := "kind: Configuration"
  const BASE_DIKI_CONFIG := "baseDikiConfig: |"
  const OUTER := "  config.yaml: |-"

  /** Three header lines, then the rest. */
  function Headed(a: string, b: string, c: string, t: string): string {
    a + "\n" + (b + "\n" + (c + "\n" + t))
  }

  /** The template `config` for a non-empty baseDikiConfig. */
  function RenderConfig(v: string): string {
    Headed(API_VERSION, KIND, BASE_DIKI_CONFIG, Indent(2, v))
  }

  /** The data entry of the chart's ConfigMap, to the end of the file. */
  function RenderChart(v: string): string {
    OUTER + NIndent(4, RenderConfig(v)) + "\n"
  }

  // ---- what the reader looks for ----

  const DATA_KEY := "config.yaml"
  const GROUP := "config.diki.extensions." + "gardener.cloud"
  const VERSION := "v1alpha1"
  const CONFIGURATION := "Configuration"
  const FIELD := "baseDikiConfig"

  datatype Style = Literal | Folded

  /** The header of a block scalar that is the value of a key (8.1.1). */
  datatype Header = Header(indent: nat, key: string, style: Style, chomp: Chomping)

  function UpToColon(s: string): (k: string)
    ensures |k| <= |s|
    decreases |s|
  {
    if s == "" || s[0] == ':' then "" else [s[0]] + UpToColon(s[1..])
  }

  /** A key and what follows its colon. */
  function KeyAndRest(l: string): Option<(string, string)> {
    var key := UpToColon(l);
    if |key| == |l| then None else Some((key, l[|key| + 1..]))
  }

  /** Style and chomping indicators; an indentation indicator, a comment and keeping are not read here. */
  function Indicators(rest: string): Option<(Style, Chomping)> {
    if rest == " |" then Some((Literal, Clip))
    else if rest == " |-" then Some((Literal, Strip))
    else if rest == " >" then Some((Folded, Clip))
    else if rest == " >-" then Some((Folded, Strip))
    else None
  }

  function ReadHeader(l: string): Option<Header> {
    match KeyAndRest(l[Lead(l)..])
    case None => None
    case Some((key, rest)) =>
      match Indicators(rest)
      case None => None
      case Some((style, chomp)) => Some(Header(Lead(l), key, style, chomp))
  }

  /** The value of `key`, from the lines that begin with its header; folded scalars are not read here. */
  function DecodeBlock(key: string, ls: seq<string>): Option<string>
    requires ls != []
  {
    match ReadHeader(ls[0])
    case None => None
    case Some(h) => if h.key == key && h.style.Literal? then DecodeLiteral(h.indent, h.chomp, ls[1..]) else None
  }

  /** The value of a plain scalar after a key at the top level. */
  function PlainEntry(l: string): Option<(string, string)> {
    match KeyAndRest(l)
    case None => None
    case Some((key, rest)) => if rest != "" && rest[0] == ' ' then Some((key, rest[1..])) else None
  }

  /** Read the data entry of the ConfigMap. */
  function DecodeOuter(text: string): Option<string> {
    DecodeBlock(DATA_KEY, Split(text))
  }

  /** Group version and kind of the object come first. */
  predicate HasType(ls: seq<string>) {
    |ls| >= 2 &&
    PlainEntry(ls[0]) == Some(("apiVersion", GROUP + "/" + VERSION)) &&
    PlainEntry(ls[1]) == Some(("kind", CONFIGURATION))
  }

  /** Read the configuration: three keys at the top level, the last with a literal block. */
  function DecodeInner(text: string): Option<string> {
    var ls := Split(text);
    if HasType(ls) && |ls| > 3 then DecodeBlock(FIELD, ls[2..]) else None
  }

  function DecodeChart(text: string): Option<string> {
    match DecodeOuter(text)
    case None => None
    case Some(config) => DecodeInner(config)
  }

  // ---- the headers that the chart prints ----

  lemma {:induction false} UpToColonStops(key: string, rest: string)
    requires ':' !in key
    ensures UpToColon(key + ":" + rest) == key
    ensures KeyAndRest(key + ":" + rest) == Some((key, rest))
    decreases |key|
  {
    var s := key + ":" + rest;
    if key != "" {
      assert s[1..] == key[1..] + ":" + rest;
      UpToColonStops(key[1..], rest);
      assert [s[0]] + key[1..] == key;
    }
    assert s[|key| + 1..] == rest;
  }

  /** A header line, put together. */
  lemma HeaderRead(n: nat, key: string, rest: string)
    requires key != "" && key[0] != ' ' && ':' !in key && Indicators(rest).Some?
    ensures ReadHeader(Spaces(n) + (key + ":" + rest)) ==
            Some(Header(n, key, Indicators(rest).value.0, Indicators(rest).value.1))
  {
    var l := key + ":" + rest;
    LeadPad(n, l);
    UpToColonStops(key, rest);
    assert (Spaces(n) + l)[n..] == l;
  }

  lemma PlainRead(key: string, value: string)
    requires ':' !in key
    ensures PlainEntry(key + ":" + (" " + value)) == Some((key, value))
  {
    UpToColonStops(key, " " + value);
  }

  lemma OuterText()
    ensures OUTER == Spaces(2) + (DATA_KEY + ":" + " |-")
  {
    assert Spaces(2) == "  ";
    assert OUTER == "  " + "config.yaml" + ":" + " |-";
  }

  /** The outer block is literal and stripped. */
  lemma ReadOuter()
    ensures ReadHeader(OUTER) == Some(Header(2, DATA_KEY, Literal, Strip))
  {
    HeaderRead(2, DATA_KEY, " |-");
    OuterText();
  }

  /** The inner block is literal and clipped. */
  lemma ReadField()
    ensures ReadHeader(BASE_DIKI_CONFIG) == Some(Header(0, FIELD, Literal, Clip))
  {
    HeaderRead(0, FIELD, " |");
    assert BASE_DIKI_CONFIG == Spaces(0) + (FIELD + ":" + " |");
  }

  lemma ReadApiVersion()
    ensures PlainEntry(API_VERSION) == Some(("apiVersion", GROUP + "/" + VERSION))
  {
    PlainRead("apiVersion", GROUP + "/" + VERSION);
    assert API_VERSION == "apiVersion" + ":" + (" " + (GROUP + "/" + VERSION));
  }

  lemma KindText()
    ensures KIND == "kind" + ":" + (" " + CONFIGURATION)
  {
  }

  lemma ReadKind()
    ensures PlainEntry(KIND) == Some(("kind", CONFIGURATION))
  {
    PlainRead("kind", CONFIGURATION);
    KindText();
  }

  /** Group version and kind are those of the configuration. */
  lemma ReadType(ls: seq<string>)
    requires |ls| >= 2 && ls[0] == API_VERSION && ls[1] == KIND
    ensures HasType(ls)
  {
    ReadApiVersion();
    ReadKind();
  }

  // ---- the round trip ----

  lemma {:induction false} LeadPad(n: nat, l: string)
    ensures Lead(Spaces(n) + l) == n + Lead(l)
    ensures Blank(Spaces(n) + l) <==> Blank(l)
    decreases n
  {
    if n == 0 {
      assert Spaces(0) + l == l;
    } else {
      var s := Spaces(n) + l;
      assert s[0] == ' ' && s[1..] == Spaces(n - 1) + l;
      LeadPad(n - 1, l);
    }
  }

  lemma ContentPad(n: nat, l: string)
    ensures Content(n, Spaces(n) + l) == Some(l)
  {
    LeadPad(n, l);
    assert (Spaces(n) + l)[n..] == l;
  }

  /** The value, once it is known which lines belong to the scalar. */
  function Value(chomp: Chomping, ls: seq<string>, body: seq<string>): string {
    var kept := DropEmpty(body);
    if kept == [] then "" else Join(kept) + if chomp.Clip? && |kept| < |ls| then "\n" else ""
  }

  lemma DecodeWhole(parent: int, chomp: Chomping, ls: seq<string>, m: nat)
    requires Detect(ls, 0) == Some(m) && parent < m && |Body(m, ls)| == |ls|
    ensures DecodeLiteral(parent, chomp, ls) == Some(Value(chomp, ls, Body(m, ls)))
  {
    var kept := DropEmpty(Body(m, ls));
    assert Join(kept) + "" == Join(kept);
  }

  lemma DecodePart(parent: int, chomp: Chomping, ls: seq<string>, m: nat)
    requires Detect(ls, 0) == Some(m) && DecodeLiteral(parent, chomp, ls).Some?
    ensures DecodeLiteral(parent, chomp, ls) == Some(Value(chomp, ls, Body(m, ls)))
  {
    var kept := DropEmpty(Body(m, ls));
    assert Join(kept) + "" == Join(kept);
  }

  lemma {:induction false} BodyPad(n: nat, ls: seq<string>)
    ensures Body(n, PadAll(Spaces(n), ls)) == ls
    decreases |ls|
  {
    if ls != [] {
      ContentPad(n, ls[0]);
      assert PadAll(Spaces(n), ls)[1..] == PadAll(Spaces(n), ls[1..]);
      BodyPad(n, ls[1..]);
    }
  }

  /** Detection on lines indented by `n` finds what it finds without, shifted. */
  lemma {:induction false} DetectPad(n: nat, ls: seq<string>, longest: nat)
    requires ls != []
    ensures Detect(PadAll(Spaces(n), ls), n + longest) ==
            match Detect(ls, longest) { case None => None case Some(m) => Some(n + m) }
    decreases |ls|
  {
    LeadPad(n, ls[0]);
    assert PadAll(Spaces(n), ls)[1..] == PadAll(Spaces(n), ls[1..]);
    if Blank(ls[0]) {
      var longest' := if |ls[0]| > longest then |ls[0]| else longest;
      if |ls| > 1 {
        DetectPad(n, ls[1..], longest');
      } else {
        assert Detect(PadAll(Spaces(n), ls[1..]), n + longest') == Some(n + longest');
      }
    }
  }

  lemma DetectPrinted(n: nat, ls: seq<string>)
    requires ls != []
    ensures Detect(PadAll(Spaces(n), ls), 0) ==
            match Detect(ls, 0) { case None => None case Some(m) => Some(n + m) }
  {
    LeadPad(n, ls[0]);
    DetectPad(n, ls, 0);
    assert Detect(PadAll(Spaces(n), ls), 0) == Detect(PadAll(Spaces(n), ls), n);
  }

  lemma HeadedLines(a: string, b: string, c: string, t: string)
    requires OneLine(a) && OneLine(b) && OneLine(c)
    ensures Split(Headed(a, b, c, t)) == [a, b, c] + Split(t)
  {
    SplitLine(c, t);
    SplitLine(b, c + "\n" + t);
    SplitLine(a, b + "\n" + (c + "\n" + t));
  }

  lemma HeaderLines()
    ensures OneLine(API_VERSION) && OneLine(KIND) && OneLine(BASE_DIKI_CONFIG) && OneLine(OUTER)
    ensures API_VERSION != "" && API_VERSION[0] != ' '
  {
    assert OneLine("apiVersion: ") && OneLine("config.diki.extensions.") && OneLine("gardener.cloud/v1alpha1");
    assert API_VERSION[0] == "apiVersion: "[0] == 'a';
  }

  lemma ConfigLines(v: string)
    ensures Split(RenderConfig(v)) == [API_VERSION, KIND, BASE_DIKI_CONFIG] + PadAll(Spaces(2), Split(v))
  {
    HeaderLines();
    HeadedLines(API_VERSION, KIND, BASE_DIKI_CONFIG, Indent(2, v));
    IndentLines(2, v);
  }

  /** A block of indented lines under a header line, closed by a line feed. */
  lemma BlockLines(header: string, n: nat, text: string)
    requires OneLine(header)
    ensures Split(header + NIndent(n, text) + "\n") == [header] + (PadAll(Spaces(n), Split(text)) + [""])
  {
    var t := Indent(n, text);
    assert header + NIndent(n, text) + "\n" == header + "\n" + (t + "\n");
    SplitLine(header, t + "\n");
    SplitFeed(t);
    IndentLines(n, text);
  }

  lemma DetectFirst(n: nat, ls: seq<string>)
    requires ls != [] && ls[0] != "" && ls[0][0] != ' '
    ensures Detect(PadAll(Spaces(n), ls) + [""], 0) == Some(n)
  {
    LeadPad(n, ls[0]);
  }

  /** A stripped block that starts flush left and whose last line is not empty comes back as it was. */
  lemma StripRoundTrip(parent: int, n: nat, text: string)
    requires parent < n
    requires var ls := Split(text); ls[0] != "" && ls[0][0] != ' ' && ls[|ls| - 1] != ""
    ensures DecodeLiteral(parent, Strip, PadAll(Spaces(n), Split(text)) + [""]) == Some(text)
  {
    var ls := Split(text);
    var ps := PadAll(Spaces(n), ls);
    DetectFirst(n, ls);
    BodyPad(n, ls);
    BodyWithEmpty(n, ps);
    DropEmptyLast(ls);
    JoinSplit(text);
    DecodeWhole(parent, Strip, ps + [""], n);
  }

  /** The outer block gives back every text that starts flush left and whose last line is not empty. */
  lemma OuterBlock(text: string)
    requires var ls := Split(text); ls[0] != "" && ls[0][0] != ' ' && ls[|ls| - 1] != ""
    ensures DecodeOuter(OUTER + NIndent(4, text) + "\n") == Some(text)
  {
    HeaderLines();
    ReadOuter();
    BlockLines(OUTER, 4, text);
    StripRoundTrip(2, 4, text);
    var ls := Split(OUTER + NIndent(4, text) + "\n");
    assert ls[1..] == PadAll(Spaces(4), Split(text)) + [""];
  }

  /** The outer block gives back the configuration as it was printed, for every value: it never ends
      in an empty line, because after a final line feed of the value there is the inner indentation. */
  lemma OuterRoundTrip(v: string)
    ensures DecodeOuter(RenderChart(v)) == Some(RenderConfig(v))
  {
    HeaderLines();
    ConfigLines(v);
    OuterBlock(RenderConfig(v));
  }

  lemma FieldRead(ls: seq<string>, ps: seq<string>)
    requires ls == [BASE_DIKI_CONFIG] + ps
    ensures DecodeBlock(FIELD, ls) == DecodeLiteral(0, Clip, ps)
  {
    ReadField();
    assert ls[1..] == ps;
  }

  lemma TypedBlock(text: string)
    requires HasType(Split(text)) && |Split(text)| > 3
    ensures DecodeInner(text) == DecodeBlock(FIELD, Split(text)[2..])
  {
  }

  lemma AfterTwo<T>(ls: seq<T>, a: T, b: T, c: T, ps: seq<T>)
    requires ls == [a, b, c] + ps
    ensures |ls| == 3 + |ps| && ls[0] == a && ls[1] == b && ls[2..] == [c] + ps
  {
  }

  lemma ConfigBlock(v: string)
    ensures HasType(Split(RenderConfig(v))) && |Split(RenderConfig(v))| > 3
    ensures Split(RenderConfig(v))[2..] == [BASE_DIKI_CONFIG] + PadAll(Spaces(2), Split(v))
  {
    ConfigLines(v);
    AfterTwo(Split(RenderConfig(v)), API_VERSION, KIND, BASE_DIKI_CONFIG, PadAll(Spaces(2), Split(v)));
    ReadType(Split(RenderConfig(v)));
  }

  /** What is read of the configuration is the inner block. */
  lemma InnerBlock(v: string)
    ensures HasType(Split(RenderConfig(v))) && |Split(RenderConfig(v))| > 3
    ensures DecodeInner(RenderConfig(v)) == DecodeLiteral(0, Clip, PadAll(Spaces(2), Split(v)))
  {
    ConfigBlock(v);
    FieldRead(Split(RenderConfig(v))[2..], PadAll(Spaces(2), Split(v)));
    TypedBlock(RenderConfig(v));
  }

  lemma {:induction false} SplitFeed(s: string)
    ensures Split(s + "\n") == Split(s) + [""]
    decreases |s|
  {
    if s == "" {
      assert Split("\n"[1..]) == [""];
    } else {
      assert (s + "\n")[1..] == s[1..] + "\n";
      SplitFeed(s[1..]);
    }
  }

  lemma {:induction false} BodyWithEmpty(n: nat, ps: seq<string>)
    requires |Body(n, ps)| == |ps|
    ensures Body(n, ps + [""]) == Body(n, ps) + [""]
    decreases |ps|
  {
    if ps == [] {
      assert Content(n, "") == Some("");
      assert Body(n, [""][1..]) == [];
    } else {
      assert (ps + [""])[1..] == ps[1..] + [""];
      BodyWithEmpty(n, ps[1..]);
    }
  }

  lemma DropEmptyLast(cs: seq<string>)
    requires cs != [] && cs[|cs| - 1] != ""
    ensures DropEmpty(cs + [""]) == cs
  {
    assert (cs + [""])[..|cs|] == cs;
  }

  // ---- the inner block ----

  /** All line feeds at the end but one removed. */
  function Clipped(v: string): string
    decreases |v|
  {
    if |v| >= 2 && v[|v| - 1] == '\n' && v[|v| - 2] == '\n' then Clipped(v[..|v| - 1]) else v
  }

  /** Empty lines, then a line that does not start with a space. */
  predicate Flush(v: string)
    decreases |v|
  {
    v != "" && v[0] != ' ' && (v[0] == '\n' ==> Flush(v[1..]))
  }

  /** A template value is printed only when it is not empty, so the file of a chart holds it. The value
      comes back if and only if it is flush left and ends in at most one line feed. */
  lemma ChartRoundTrip(v: string)
    requires v != ""
    ensures Flush(v) ==> DecodeChart(RenderChart(v)) == Some(Clipped(v))
    ensures DecodeChart(RenderChart(v)) == Some(v) <==> (Flush(v) && Clipped(v) == v)
  {
    OuterRoundTrip(v);
    InnerBlock(v);
    if Flush(v) {
      InnerFlush(v);
    } else {
      InnerNotFlush(v, Split(v), PadAll(Spaces(2), Split(v)));
    }
  }

  /** The same of the lines of a text. */
  predicate FlushLines(ls: seq<string>)
    decreases |ls|
  {
    ls != [] && if ls[0] == "" then FlushLines(ls[1..]) else ls[0][0] != ' '
  }

  lemma {:induction false} FlushSplit(v: string)
    ensures Flush(v) <==> FlushLines(Split(v))
    decreases |v|
  {
    if v == "" {
      assert !FlushLines([""][1..]);
    } else if v[0] == '\n' {
      FlushSplit(v[1..]);
      assert Split(v)[1..] == Split(v[1..]);
    }
  }

  lemma {:induction false} FlushDetect(ls: seq<string>)
    requires FlushLines(ls)
    ensures Detect(ls, 0) == Some(0) && DropEmpty(ls) != []
    decreases |ls|
  {
    if ls[0] == "" {
      FlushDetect(ls[1..]);
      var kept := DropEmpty(ls[1..]);
      HasSolid(ls, |kept|);
    } else {
      HasSolid(ls, 0);
    }
  }

  lemma HasSolid(ls: seq<string>, i: nat)
    requires i < |ls| && ls[i] != ""
    ensures DropEmpty(ls) != []
  {
    var kept := DropEmpty(ls);
    assert forall j :: |kept| <= j < |ls| ==> ls[j] == "";
  }

  /** Not flush left, yet with a first solid line: there is indentation to lose. */
  lemma {:induction false} NotFlushIndented(ls: seq<string>)
    requires !FlushLines(ls) && FirstSolid(ls) < |ls| && Detect(ls, 0).Some?
    ensures Detect(ls, 0).value > 0
    decreases |ls|
  {
    if ls[0] == "" {
      NotFlushIndented(ls[1..]);
    } else if Blank(ls[0]) {
      DetectMeans(ls[1..], |ls[0]|);
    }
  }

  lemma DropEmptySnoc(ls: seq<string>)
    ensures DropEmpty(ls + [""]) == DropEmpty(ls)
  {
    assert (ls + [""])[..|ls|] == ls;
  }

  lemma LastEmpty(v: string)
    requires v != "" && v[|v| - 1] == '\n'
    ensures Split(v) == Split(v[..|v| - 1]) + [""]
  {
    assert v == v[..|v| - 1] + "\n";
    SplitFeed(v[..|v| - 1]);
  }

  lemma {:induction false} LastNotEmpty(v: string)
    requires v != "" && v[|v| - 1] != '\n'
    ensures Split(v)[|Split(v)| - 1] != ""
    decreases |v|
  {
    if |v| > 1 {
      assert v[1..][|v[1..]| - 1] == v[|v| - 1];
      LastNotEmpty(v[1..]);
    }
  }

  lemma ValueEnded(us: seq<string>)
    requires us != [] && us[|us| - 1] != ""
    ensures Value(Clip, us + [""], us + [""]) == Join(us) + "\n"
  {
    DropEmptyLast(us);
  }

  lemma ValueMany(us: seq<string>)
    requires us != [] && us[|us| - 1] == ""
    ensures Value(Clip, us + [""], us + [""]) == Value(Clip, us, us)
    ensures DropEmpty(us + [""]) == DropEmpty(us)
  {
    DropEmptySnoc(us);
  }

  lemma ValueUnended(us: seq<string>)
    requires us != [] && us[|us| - 1] != ""
    ensures Value(Clip, us, us) == Join(us)
  {
    assert DropEmpty(us) == us;
    assert Join(us) + "" == Join(us);
  }

  lemma ClippedFeed(u: string)
    ensures Clipped(u + "\n") == if u != "" && u[|u| - 1] == '\n' then Clipped(u) else u + "\n"
  {
    var v := u + "\n";
    assert v[..|v| - 1] == u;
  }

  lemma NothingKept()
    ensures DropEmpty(Split("")) == [] && DropEmpty(Split("\n")) == []
  {
    SplitFeed("");
    assert "" + "\n" == "\n";
    DropEmptySnoc([""]);
    DropEmptySnoc([]);
    assert [] + [""] == [""];
  }

  /** Chopping the empty lines at the end and closing with one line feed is clipping the text. */
  lemma {:induction false} ClippedLines(v: string, ls: seq<string>)
    requires ls == Split(v) && DropEmpty(ls) != []
    ensures Value(Clip, ls, ls) == Clipped(v)
    decreases |v|
  {
    NothingKept();
    JoinSplit(v);
    if v[|v| - 1] != '\n' {
      LastNotEmpty(v);
      ValueUnended(ls);
    } else {
      var u := v[..|v| - 1];
      var us := Split(u);
      LastEmpty(v);
      assert v == u + "\n";
      ClippedFeed(u);
      JoinSplit(u);
      if u[|u| - 1] != '\n' {
        LastNotEmpty(u);
        ValueEnded(us);
      } else {
        LastEmpty(u);
        ValueMany(us);
        ClippedLines(u, us);
      }
    }
  }

  /** The first line that is not blank, or the number of lines. */
  function FirstSolid(ls: seq<string>): (f: nat)
    ensures f <= |ls| && (f < |ls| ==> !Blank(ls[f])) && forall i :: 0 <= i < f ==> Blank(ls[i])
    decreases |ls|
  {
    if ls == [] || !Blank(ls[0]) then 0 else 1 + FirstSolid(ls[1..])
  }

  lemma {:induction false} DetectMeans(ls: seq<string>, longest: nat)
    requires Detect(ls, longest).Some?
    ensures var m, f := Detect(ls, longest).value, FirstSolid(ls);
            longest <= m && (f < |ls| ==> Lead(ls[f]) == m) && forall i :: 0 <= i < f ==> |ls[i]| <= m
    decreases |ls|
  {
    if ls != [] && Blank(ls[0]) {
      DetectMeans(ls[1..], if |ls[0]| > longest then |ls[0]| else longest);
      assert forall i :: 0 < i < FirstSolid(ls) ==> ls[i] == ls[1..][i - 1];
    }
  }

  lemma {:induction false} BodyAt(n: nat, ls: seq<string>, i: nat)
    requires i < |Body(n, ls)|
    ensures Content(n, ls[i]) == Some(Body(n, ls)[i])
    decreases |ls|
  {
    if i > 0 {
      BodyAt(n, ls[1..], i - 1);
    }
  }

  lemma {:induction false} BodyOneLine(n: nat, ls: seq<string>)
    requires forall l :: l in ls ==> OneLine(l)
    ensures forall l :: l in Body(n, ls) ==> OneLine(l)
    decreases |ls|
  {
    if ls != [] && Content(n, ls[0]).Some? {
      assert ls[0] in ls;
      BodyOneLine(n, ls[1..]);
    }
  }

  lemma InnerFlush(v: string)
    requires Flush(v)
    ensures DecodeLiteral(0, Clip, PadAll(Spaces(2), Split(v))) == Some(Clipped(v))
  {
    var ls := Split(v);
    var ps := PadAll(Spaces(2), ls);
    FlushSplit(v);
    FlushDetect(ls);
    DetectPrinted(2, ls);
    BodyPad(2, ls);
    DecodeWhole(0, Clip, ps, 2);
    ClippedLines(v, ls);
  }

  /** What a line contributes that was printed with two spaces and read with `m` more. */
  lemma ContentShort(m: nat, l: string)
    requires Content(2 + m, Spaces(2) + l).Some?
    ensures Blank(l) && |l| <= m ==> Content(2 + m, Spaces(2) + l) == Some("")
    ensures !Blank(l) ==> |Content(2 + m, Spaces(2) + l).value| == |l| - m
  {
    LeadPad(2, l);
  }

  lemma KeptLine(ls: seq<string>, m: nat, kept: seq<string>, i: nat)
    requires kept == DropEmpty(Body(2 + m, PadAll(Spaces(2), ls))) && i < |kept|
    ensures Blank(ls[i]) && |ls[i]| <= m ==> kept[i] == ""
    ensures !Blank(ls[i]) ==> |kept[i]| == |ls[i]| - m
  {
    var ps := PadAll(Spaces(2), ls);
    BodyAt(2 + m, ps, i);
    assert kept[i] == Body(2 + m, ps)[i];
    ContentShort(m, ls[i]);
  }

  /** If the value of the block is not empty, its first solid line lost the spaces it started with. */
  lemma LosesSpaces(ls: seq<string>, m: nat, kept: seq<string>)
    requires Detect(ls, 0) == Some(m)
    requires kept == DropEmpty(Body(2 + m, PadAll(Spaces(2), ls))) && kept != []
    ensures var f := FirstSolid(ls); f < |kept| && |kept[f]| == |ls[f]| - m
  {
    var f, k := FirstSolid(ls), |kept|;
    DetectMeans(ls, 0);
    KeptLine(ls, m, kept, if f < k then f else k - 1);
  }

  /** The lines of the decoded value are the kept ones, and perhaps an empty one. */
  lemma ValueLines(n: nat, ps: seq<string>)
    requires forall l :: l in ps ==> OneLine(l)
    requires DropEmpty(Body(n, ps)) != []
    ensures var kept, x := DropEmpty(Body(n, ps)), Value(Clip, ps, Body(n, ps));
            Split(x) == kept || Split(x) == kept + [""]
  {
    var kept := DropEmpty(Body(n, ps));
    BodyOneLine(n, ps);
    SplitJoin(kept);
    SplitFeed(Join(kept));
    assert Join(kept) + "" == Join(kept);
  }

  lemma PaddedOneLine(n: nat, v: string)
    ensures forall l :: l in PadAll(Spaces(n), Split(v)) ==> OneLine(l)
  {
    var ps := PadAll(Spaces(n), Split(v));
    SplitOneLine(v);
    forall l | l in ps ensures OneLine(l) {
      var i :| 0 <= i < |ps| && l == ps[i];
      assert Split(v)[i] in Split(v);
    }
  }

  lemma LineDiffers(x: string, v: string, f: nat)
    requires f < |Split(x)| && f < |Split(v)| && |Split(x)[f]| != |Split(v)[f]|
    ensures x != v
  {
  }

  lemma ValueDiffers(v: string, m: nat)
    requires v != "" && !FlushLines(Split(v)) && Detect(Split(v), 0) == Some(m)
    ensures var ps := PadAll(Spaces(2), Split(v)); Value(Clip, ps, Body(2 + m, ps)) != v
  {
    var ls := Split(v);
    var ps := PadAll(Spaces(2), ls);
    var kept := DropEmpty(Body(2 + m, ps));
    if kept != [] {
      LosesSpaces(ls, m, kept);
      NotFlushIndented(ls);
      PaddedOneLine(2, v);
      ValueLines(2 + m, ps);
      LineDiffers(Value(Clip, ps, Body(2 + m, ps)), v, FirstSolid(ls));
    }
  }

  lemma DecodeDiffers(ps: seq<string>, v: string)
    requires Detect(ps, 0).Some? ==> Value(Clip, ps, Body(Detect(ps, 0).value, ps)) != v
    ensures DecodeLiteral(0, Clip, ps) != Some(v)
  {
    if DecodeLiteral(0, Clip, ps).Some? {
      DecodePart(0, Clip, ps, Detect(ps, 0).value);
    }
  }

  lemma PrintedValueDiffers(v: string, ls: seq<string>, ps: seq<string>)
    requires v != "" && ls == Split(v) && !FlushLines(ls) && ps == PadAll(Spaces(2), ls)
    ensures Detect(ps, 0).Some? ==> Value(Clip, ps, Body(Detect(ps, 0).value, ps)) != v
  {
    DetectPrinted(2, ls);
    if Detect(ls, 0).Some? {
      ValueDiffers(v, Detect(ls, 0).value);
    }
  }

  lemma InnerNotFlush(v: string, ls: seq<string>, ps: seq<string>)
    requires v != "" && !Flush(v) && ls == Split(v) && ps == PadAll(Spaces(2), ls)
    ensures DecodeLiteral(0, Clip, ps) != Some(v)
  {
    FlushSplit(v);
    PrintedValueDiffers(v, ls, ps);
    DecodeDiffers(ps, v);
  }
}
