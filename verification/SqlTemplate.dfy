/** `{{ param }}` substitution into trusted SQL text, with values escaped as literals
    and parameters in identifier positions checked instead. */
module SqlTemplate {
  import opened Prelude

  /** A converted parameter value; numbers and other objects carry their printed text. */
  datatype Value = Null | Bool(b: bool) | Number(text: string) | Text(s: string) | Other(text: string)

  datatype Error = InvalidIdentifier(key: string) | MissingParameter(name: string) | InvalidPlaceholder

  const QUOTE: char := '\''

  // ---- literals ---------------------------------------------------------------

  function Doubled(s: string): string {
    if s == "" then ""
    else (if s[0] == QUOTE then [QUOTE, QUOTE] else [s[0]]) + Doubled(s[1..])
  }

  function Literal(s: string): string { [QUOTE] + Doubled(s) + [QUOTE] }

  function EscapeValue(v: Value): string {
    match v
    case Null => "NULL"
    case Bool(b) => if b then "1" else "0"
    case Number(text) => text
    case Text(s) => Literal(s)
    case Other(text) => Literal(text)
  }

  /** The rest of a character string literal after its opening quote, read as section 5.3 of
      ISO/IEC 9075-2 prescribes: two quotes stand for one, a single one ends the literal. */
  function ReadBody(t: string): Option<(string, string)> {
    if t == "" then None
    else if t[0] != QUOTE then
      match ReadBody(t[1..]) case None => None case Some(r) => Some(([t[0]] + r.0, r.1))
    else if |t| > 1 && t[1] == QUOTE then
      match ReadBody(t[2..]) case None => None case Some(r) => Some(([QUOTE] + r.0, r.1))
    else Some(("", t[1..]))
  }

  function ReadLiteral(t: string): Option<(string, string)> {
    if t == "" || t[0] != QUOTE then None else ReadBody(t[1..])
  }

  predicate BeginsWithQuote(t: string) { t != "" && t[0] == QUOTE }

  lemma {:induction false} ReadDoubled(v: string, rest: string)
    requires !BeginsWithQuote(rest)
    ensures ReadBody(Doubled(v) + [QUOTE] + rest) == Some((v, rest))
  {
    var t := Doubled(v) + [QUOTE] + rest;
    if v == "" {
      assert t[1..] == rest;
    } else {
      ReadDoubled(v[1..], rest);
      var later := Doubled(v[1..]) + [QUOTE] + rest;
      if v[0] == QUOTE {
        assert t[2..] == later;
      } else {
        assert t[1..] == later;
      }
      assert [v[0]] + v[1..] == v;
    }
  }

  /** A quote right after the literal is read as part of it. */
  lemma {:induction false} ReadRunsOn(v: string, rest: string)
    requires BeginsWithQuote(rest)
    ensures var r := ReadBody(Doubled(v) + [QUOTE] + rest);
            r.Some? ==> |r.value.0| > |v|
  {
    var t := Doubled(v) + [QUOTE] + rest;
    if v != "" {
      ReadRunsOn(v[1..], rest);
      var later := Doubled(v[1..]) + [QUOTE] + rest;
      if v[0] == QUOTE {
        assert t[2..] == later;
      } else {
        assert t[1..] == later;
      }
    }
  }

  /** Reading an escaped string recovers the value and stops at the text that follows,
      exactly when that text does not begin with a quote. */
  lemma LiteralRoundTrip(v: string, rest: string)
    ensures ReadLiteral(Literal(v) + rest) == Some((v, rest)) <==> !BeginsWithQuote(rest)
  {
    assert (Literal(v) + rest)[1..] == Doubled(v) + [QUOTE] + rest;
    if BeginsWithQuote(rest) { ReadRunsOn(v, rest); } else { ReadDoubled(v, rest); }
  }

  // ---- the placeholder grammar ---------------------------------------------------

  /** What `\s` matches among ASCII characters: the separators 28 to 31 are among them. */
  predicate IsSpace(c: char) { c == ' ' || 9 as char <= c <= 13 as char || 28 as char <= c <= 31 as char }

  predicate IsLetter(c: char) { 'a' <= c <= 'z' || 'A' <= c <= 'Z' }

  predicate IsDigit(c: char) { '0' <= c <= '9' }

  predicate IsWord(c: char) { IsLetter(c) || IsDigit(c) || c == '_' }

  function Spaces(t: string): (n: nat)
    ensures n <= |t|
  {
    if t != "" && IsSpace(t[0]) then 1 + Spaces(t[1..]) else 0
  }

  function WordLength(t: string): (n: nat)
    ensures n <= |t|
  {
    if t != "" && IsWord(t[0]) then 1 + WordLength(t[1..]) else 0
  }

  function NameLength(t: string): (n: nat)
    ensures n <= |t|
  {
    if t != "" && IsWord(t[0]) && !IsDigit(t[0]) then WordLength(t) else 0
  }

  /** A stretch of the template: plain text, a placeholder, an escaped `{{`, or a `{{`
      that begins none of these; all but plain text keep the source they cover. */
  datatype Token = Plain(c: char) | Hole(raw: string, name: string) | Escaped(raw: string) | Bad(raw: string)

  function Raw(t: Token): string { if t.Plain? then [t.c] else t.raw }

  /** The token at the start of a text, by the alternatives of the template's pattern. */
  function FirstToken(q: string): (t: Token)
    requires q != ""
    ensures Raw(t) != "" && StartsWith(q, Raw(t))
    ensures t.Plain? <==> !StartsWith(q, "{{")
  {
    if !StartsWith(q, "{{") then Plain(q[0])
    else
      var i := 2 + Spaces(q[2..]);
      if StartsWith(q[i..], "{{") then Escaped(q[..i + 2])
      else
        var n := i + NameLength(q[i..]);
        var e := n + Spaces(q[n..]);
        if n > i && StartsWith(q[e..], "}}") then Hole(q[..e + 2], q[i..n]) else Bad(q[..i])
  }

  function Tokens(q: string): seq<Token> {
    if q == "" then [] else [FirstToken(q)] + Tokens(q[|Raw(FirstToken(q))|..])
  }

  function Source(ts: seq<Token>): string {
    if ts == [] then "" else Raw(ts[0]) + Source(ts[1..])
  }

  lemma SourceFirst(t: Token, ts: seq<Token>)
    ensures Source([t] + ts) == Raw(t) + Source(ts)
  {
    assert ([t] + ts)[1..] == ts;
  }

  ghost predicate PlainIsPlain(ts: seq<Token>) {
    forall i :: 0 <= i < |ts| && ts[i].Plain? ==> !StartsWith(Source(ts[i..]), "{{")
  }

  lemma OneMoreToken(t: Token, ts: seq<Token>)
    requires PlainIsPlain(ts) && (t.Plain? ==> !StartsWith(Source([t] + ts), "{{"))
    ensures PlainIsPlain([t] + ts)
  {
    var all := [t] + ts;
    forall i | 0 <= i < |all| && all[i].Plain? ensures !StartsWith(Source(all[i..]), "{{") {
      if i == 0 {
        assert all[0..] == all;
      } else {
        assert all[i..] == ts[i - 1..];
      }
    }
  }

  /** The tokens cover the template from left to right, and every `{{` that is not inside an
      earlier placeholder begins a placeholder of its own. */
  lemma {:induction false} TokensCover(q: string)
    ensures Source(Tokens(q)) == q
    ensures forall i :: 0 <= i < |Tokens(q)| && Tokens(q)[i].Plain? ==> !StartsWith(Source(Tokens(q)[i..]), "{{")
  {
    if q != "" {
      var t := FirstToken(q);
      var rest := q[|Raw(t)|..];
      TokensCover(rest);
      SourceFirst(t, Tokens(rest));
      assert q == Raw(t) + rest;
      OneMoreToken(t, Tokens(rest));
      assert Tokens(q) == [t] + Tokens(rest);
    }
  }

  // ---- what the tokens are ---------------------------------------------------------

  /** A placeholder's text: braces, spaces, a name, spaces, braces. */
  function HoleText(before: string, name: string, after: string): string { "{{" + before + name + after + "}}" }

  predicate AllSpace(t: string) { forall i :: 0 <= i < |t| ==> IsSpace(t[i]) }

  /** A letter or underscore, and then letters, digits and underscores. */
  predicate IsName(t: string) { t != "" && !IsDigit(t[0]) && forall i :: 0 <= i < |t| ==> IsWord(t[i]) }

  lemma {:induction false} SpacesEnd(t: string, rest: string)
    requires AllSpace(t) && (rest == "" || !IsSpace(rest[0]))
    ensures Spaces(t + rest) == |t|
  {
    if t == "" {
      assert t + rest == rest;
    } else {
      assert (t + rest)[1..] == t[1..] + rest;
      SpacesEnd(t[1..], rest);
    }
  }

  lemma {:induction false} WordEnds(t: string, rest: string)
    requires (forall i :: 0 <= i < |t| ==> IsWord(t[i])) && (rest == "" || !IsWord(rest[0]))
    ensures WordLength(t + rest) == |t|
  {
    if t == "" {
      assert t + rest == rest;
    } else {
      assert (t + rest)[1..] == t[1..] + rest;
      WordEnds(t[1..], rest);
    }
  }

  lemma NameEnds(name: string, rest: string)
    requires IsName(name) && (rest == "" || !IsWord(rest[0]))
    ensures NameLength(name + rest) == |name|
  {
    WordEnds(name, rest);
  }

  lemma Behind(x: string, y: string)
    ensures (x + y)[|x|..] == y && (x + y)[..|x|] == x
  {
  }

  lemma Grouped(before: string, name: string, after: string, rest: string)
    ensures HoleText(before, name, after) + rest == "{{" + (before + (name + (after + ("}}" + rest))))
    ensures HoleText(before, name, after) + rest == ("{{" + before) + (name + (after + ("}}" + rest)))
    ensures HoleText(before, name, after) + rest == ("{{" + before + name) + (after + ("}}" + rest))
    ensures HoleText(before, name, after) + rest == ("{{" + before + name + after) + ("}}" + rest)
  {
  }

  lemma BracesAhead(rest: string)
    ensures StartsWith("}}" + rest, "}}") && !StartsWith("}}" + rest, "{{")
  {
    assert ("}}" + rest)[..2] == "}}";
    assert "}}"[0] == '}' && "{{"[0] == '{';
  }

  lemma NoBraces(name: string, rest: string)
    requires IsName(name)
    ensures !StartsWith(name + rest, "{{")
  {
    assert (name + rest)[0] == name[0] && IsWord(name[0]) && "{{"[0] == '{';
  }

  /** The places at which a token is told a placeholder. */
  lemma HoleFound(q: string, i: nat, n: nat, e: nat)
    requires StartsWith(q, "{{") && i == 2 + Spaces(q[2..]) && !StartsWith(q[i..], "{{")
    requires n == i + NameLength(q[i..]) && n > i && e == n + Spaces(q[n..]) && StartsWith(q[e..], "}}")
    ensures FirstToken(q) == Hole(q[..e + 2], q[i..n])
  {
  }

  lemma SpacesBefore(before: string, name: string, rest: string)
    requires AllSpace(before) && IsName(name)
    ensures Spaces(before + (name + rest)) == |before|
  {
    assert (name + rest)[0] == name[0] && IsWord(name[0]);
    SpacesEnd(before, name + rest);
  }

  lemma NameBefore(name: string, after: string, rest: string)
    requires IsName(name) && AllSpace(after)
    ensures NameLength(name + (after + ("}}" + rest))) == |name|
  {
    var tail := after + ("}}" + rest);
    assert if after == "" then tail[0] == '}' else tail[0] == after[0] && IsSpace(after[0]);
    NameEnds(name, tail);
  }

  lemma SpacesClosed(after: string, rest: string)
    requires AllSpace(after)
    ensures Spaces(after + ("}}" + rest)) == |after|
  {
    assert ("}}" + rest)[0] == '}';
    SpacesEnd(after, "}}" + rest);
  }

  lemma HoleParts(before: string, key: string, after: string)
    ensures var m, j := HoleText(before, key, after), 2 + |before|;
            && m[0..2] == "{{" && m[2..j] == before && m[j..j + |key|] == key
            && m[j + |key|..|m| - 2] == after && m[|m| - 2..|m|] == "}}"
  {
  }

  /** Where the parts of a placeholder lie in a text that begins with it. */
  ghost predicate BeginsWithHole(q: string, before: string, name: string, after: string, rest: string) {
    var i := 2 + |before|;
    var n := i + |name|;
    var e := n + |after|;
    && e + 2 <= |q| && StartsWith(q, "{{")
    && q[2..] == before + (name + (after + ("}}" + rest))) && q[i..] == name + (after + ("}}" + rest))
    && q[n..] == after + ("}}" + rest) && q[e..] == "}}" + rest
    && q[i..n] == name && q[..e + 2] == HoleText(before, name, after)
  }

  lemma HoleBegins(before: string, name: string, after: string, rest: string)
    ensures BeginsWithHole(HoleText(before, name, after) + rest, before, name, after, rest)
  {
    var closing := "}}" + rest;
    Grouped(before, name, after, rest);
    Behind("{{", before + (name + (after + closing)));
    Behind("{{" + before, name + (after + closing));
    Behind("{{" + before + name, after + closing);
    Behind("{{" + before + name + after, closing);
    Behind(HoleText(before, name, after), rest);
    HoleParts(before, name, after);
    NameWithin(HoleText(before, name, after), rest, 2 + |before|, |name|);
  }

  lemma NameWithin(text: string, rest: string, i: nat, k: nat)
    requires i + k <= |text|
    ensures (text + rest)[i..i + k] == text[i..i + k]
  {
  }

  lemma HoleReadFrom(q: string, before: string, name: string, after: string, rest: string)
    requires AllSpace(before) && IsName(name) && AllSpace(after) && BeginsWithHole(q, before, name, after, rest)
    ensures FirstToken(q) == Hole(HoleText(before, name, after), name)
  {
    SpacesBefore(before, name, after + ("}}" + rest));
    NoBraces(name, after + ("}}" + rest));
    NameBefore(name, after, rest);
    SpacesClosed(after, rest);
    BracesAhead(rest);
    HoleFound(q, 2 + |before|, 2 + |before| + |name|, 2 + |before| + |name| + |after|);
  }

  /** A well-formed placeholder is read as a placeholder for its name, whatever follows it. */
  lemma HoleIsRead(before: string, name: string, after: string, rest: string)
    requires AllSpace(before) && IsName(name) && AllSpace(after)
    ensures FirstToken(HoleText(before, name, after) + rest) == Hole(HoleText(before, name, after), name)
  {
    HoleBegins(before, name, after, rest);
    HoleReadFrom(HoleText(before, name, after) + rest, before, name, after, rest);
  }

  /** An escape is read as one. */
  lemma EscapeIsRead(before: string, rest: string)
    requires AllSpace(before)
    ensures FirstToken("{{" + before + "{{" + rest) == Escaped("{{" + before + "{{")
  {
    var q := "{{" + before + "{{" + rest;
    assert q[2..] == before + ("{{" + rest) && q[..2] == "{{";
    SpacesEnd(before, "{{" + rest);
    assert q[2 + |before|..] == "{{" + rest && q[..|before| + 4] == "{{" + before + "{{";
  }

  lemma {:induction false} SpacesAre(t: string)
    ensures AllSpace(t[..Spaces(t)])
  {
    if t != "" && IsSpace(t[0]) {
      SpacesAre(t[1..]);
      assert t[..Spaces(t)] == [t[0]] + t[1..][..Spaces(t[1..])];
    }
  }

  lemma {:induction false} WordIs(t: string)
    ensures forall i :: 0 <= i < WordLength(t) ==> IsWord(t[i])
  {
    if t != "" && IsWord(t[0]) { WordIs(t[1..]); }
  }

  /** Nothing else is read as an escape. */
  lemma EscapesAreWellFormed(q: string)
    requires q != "" && FirstToken(q).Escaped?
    ensures exists before :: AllSpace(before) && FirstToken(q).raw == "{{" + before + "{{"
  {
    var i := 2 + Spaces(q[2..]);
    SpacesAre(q[2..]);
    var before := q[2..][..i - 2];
    assert q[..i] == q[..2] + before;
    assert q[..i + 2] == q[..i] + q[i..][..2];
  }

  /** Nothing else is read as a placeholder. */
  lemma HolesAreWellFormed(q: string)
    requires q != "" && FirstToken(q).Hole?
    ensures exists before, after :: AllSpace(before) && AllSpace(after) && IsName(FirstToken(q).name)
                                    && FirstToken(q).raw == HoleText(before, FirstToken(q).name, after)
  {
    var i := 2 + Spaces(q[2..]);
    var n := i + NameLength(q[i..]);
    var e := n + Spaces(q[n..]);
    var before, name, after := q[2..i], q[i..n], q[n..e];
    SpacesAre(q[2..]);
    assert q[2..][..i - 2] == before;
    SpacesAre(q[n..]);
    assert q[n..][..e - n] == after;
    WordIs(q[i..]);
    assert q[i..][..n - i] == name && IsName(name);
    assert q[e..][..2] == q[e..e + 2];
    FivePieces(q, i, n, e);
  }

  lemma FivePieces(q: string, i: nat, n: nat, e: nat)
    requires 2 <= i <= n <= e && e + 2 <= |q|
    ensures q[..e + 2] == q[..2] + q[2..i] + q[i..n] + q[n..e] + q[e..e + 2]
  {
  }

  // ---- rendering --------------------------------------------------------------------

  function Render(t: Token, escaped: map<string, string>): Result<string, Error> {
    match t
    case Plain(c) => Ok([c])
    case Hole(_, name) => if name in escaped then Ok(escaped[name]) else Err(MissingParameter(name))
    case Escaped(_) => Ok("{{")
    case Bad(_) => Err(InvalidPlaceholder)
  }

  /** The substituted text, or the first error from the left. */
  function RenderAll(ts: seq<Token>, escaped: map<string, string>): Result<string, Error> {
    if ts == [] then Ok("")
    else
      match Render(ts[0], escaped)
      case Err(e) => Err(e)
      case Ok(first) =>
        match RenderAll(ts[1..], escaped)
        case Err(e) => Err(e)
        case Ok(rest) => Ok(first + rest)
  }

  lemma {:induction false} RenderSplit(ts: seq<Token>, escaped: map<string, string>, i: nat)
    requires RenderAll(ts, escaped).Ok? && i < |ts|
    ensures RenderAll(ts[..i], escaped).Ok? && Render(ts[i], escaped).Ok? && RenderAll(ts[i + 1..], escaped).Ok?
    ensures RenderAll(ts, escaped).value
         == RenderAll(ts[..i], escaped).value + Render(ts[i], escaped).value + RenderAll(ts[i + 1..], escaped).value
  {
    if i > 0 {
      var tail := ts[1..];
      RenderSplit(tail, escaped, i - 1);
      assert tail[..i - 1] == ts[..i][1..] && tail[i - 1] == ts[i] && tail[i..] == ts[i + 1..];
      var first, before := Render(ts[0], escaped).value, RenderAll(tail[..i - 1], escaped).value;
      var here, after := Render(ts[i], escaped).value, RenderAll(ts[i + 1..], escaped).value;
      assert RenderAll(ts[..i], escaped).value == first + before;
      assert first + (before + here + after) == first + before + here + after;
    }
  }

  /** Text that is no placeholder stays, and an escape becomes the two braces it stands for. */
  lemma RestStays(t: Token, escaped: map<string, string>)
    ensures t.Plain? ==> Render(t, escaped) == Ok(Raw(t))
    ensures t.Escaped? ==> Render(t, escaped) == Ok("{{")
  {
  }

  lemma {:induction false} RendersIff(ts: seq<Token>, escaped: map<string, string>)
    ensures RenderAll(ts, escaped).Ok? <==>
            forall i :: 0 <= i < |ts| ==> !ts[i].Bad? && (ts[i].Hole? ==> ts[i].name in escaped)
  {
    if ts != [] {
      RendersIff(ts[1..], escaped);
      if forall i :: 0 <= i < |ts| ==> !ts[i].Bad? && (ts[i].Hole? ==> ts[i].name in escaped) {
        assert forall i :: 0 <= i < |ts[1..]| ==> ts[1..][i] == ts[i + 1];
      } else {
        var i :| 0 <= i < |ts| && !(!ts[i].Bad? && (ts[i].Hole? ==> ts[i].name in escaped));
        if i > 0 { assert ts[1..][i - 1] == ts[i]; }
      }
    }
  }

  // ---- value and identifier positions -----------------------------------------------

  predicate OneLineUnquoted(t: string) { forall i :: 0 <= i < |t| ==> t[i] !in "'\n\r" }

  /** The placeholder of a key lies at q[i..e]. */
  predicate HoleAt(q: string, key: string, i: nat, e: nat) {
    i + 4 <= e <= |q| && q[i..i + 2] == "{{" && q[e - 2..e] == "}}" &&
    exists j :: i + 2 <= j <= e - 2 && PaddedKey(q, key, i, j, e)
  }

  /** Between the braces at i and those ending at e lie spaces, the key from j on, and spaces. */
  predicate PaddedKey(q: string, key: string, i: nat, j: nat, e: nat)
    requires i + 2 <= j <= e - 2 <= e <= |q|
  {
    && AllSpace(q[i + 2..j])
    && j + |key| <= e - 2 && q[j..j + |key|] == key
    && AllSpace(q[j + |key|..e - 2])
  }

  predicate InBrackets(q: string, i: nat, e: nat)
    requires i <= e <= |q|
  {
    exists a, b :: 0 <= a < i && e <= b < |q| && q[a] == '[' && AllSpace(q[a + 1..i]) && AllSpace(q[e..b]) && q[b] == ']'
  }

  predicate InQuotes(q: string, i: nat, e: nat)
    requires i <= e <= |q|
  {
    exists a, b :: 0 <= a < i && e <= b < |q| && q[a] == QUOTE && OneLineUnquoted(q[a + 1..i])
                   && OneLineUnquoted(q[e..b]) && q[b] == QUOTE
  }

  /** One of the four identifier patterns matches around q[i..e]. */
  predicate InContext(q: string, i: nat, e: nat)
    requires i <= e <= |q|
  {
    || InBrackets(q, i, e)
    || InQuotes(q, i, e)
    || (i >= 2 && q[i - 1] == '_' && IsWord(q[i - 2]))
    || (e + 1 < |q| && q[e] == '_' && IsWord(q[e + 1]))
  }

  /** One of them matches somewhere in the query. */
  predicate IsIdentifier(q: string, key: string) {
    exists i, e :: 0 <= i <= |q| && 0 <= e <= |q| && HoleAt(q, key, i, e) && InContext(q, i, e)
  }

  predicate SafeIdentifier(s: string) {
    forall i :: 0 <= i < |s| ==> IsLetter(s[i]) || IsDigit(s[i]) || s[i] in "_- /"
  }

  function Printed(v: Value): string {
    match v
    case Null => "None"
    case Bool(b) => if b then "True" else "False"
    case Number(text) => text
    case Text(s) => s
    case Other(text) => text
  }

  function EscapeParameter(q: string, key: string, v: Value): Result<string, Error> {
    if !IsIdentifier(q, key) then Ok(EscapeValue(v))
    else if v.Text? && !SafeIdentifier(v.s) then Err(InvalidIdentifier(key))
    else Ok(Printed(v))
  }

  /** The placeholder of a key stands somewhere between these texts. */
  ghost predicate HoleBetween(q: string, key: string, left: string, right: string) {
    exists before, after :: AllSpace(before) && AllSpace(after) && q == left + HoleText(before, key, after) + right
  }

  /** The text ends in an opening bracket and spaces, a quote with nothing but a line between, or a word
      and an underscore; or the text after begins likewise. */
  ghost predicate NamesSomething(left: string, right: string) {
    || (exists l, s, t, r :: left == l + "[" + s && right == t + "]" + r && AllSpace(s) && AllSpace(t))
    || (exists l, s, t, r :: left == l + "'" + s && right == t + "'" + r && OneLineUnquoted(s) && OneLineUnquoted(t))
    || (exists l, c :: left == l + [c] + "_" && IsWord(c))
    || (exists c, r :: right == "_" + [c] + r && IsWord(c))
  }

  lemma Within(left: string, mid: string, right: string, a: nat, b: nat)
    requires a <= b <= |mid|
    ensures (left + mid + right)[|left| + a..|left| + b] == mid[a..b]
  {
  }

  lemma HoleAtIs(q: string, key: string, left: string, right: string)
    requires HoleBetween(q, key, left, right)
    ensures |left| + |right| <= |q| && HoleAt(q, key, |left|, |q| - |right|)
  {
    var before, after :| AllSpace(before) && AllSpace(after) && q == left + HoleText(before, key, after) + right;
    var m, j := HoleText(before, key, after), 2 + |before|;
    HoleParts(before, key, after);
    Within(left, m, right, 0, 2);
    Within(left, m, right, 2, j);
    Within(left, m, right, j, j + |key|);
    Within(left, m, right, j + |key|, |m| - 2);
    Within(left, m, right, |m| - 2, |m|);
    assert PaddedKey(q, key, |left|, |left| + j, |q| - |right|);
  }

  lemma InnerIs(q: string, key: string, i: nat, j: nat, k: nat, e: nat)
    requires i + 2 <= j <= k <= e - 2 <= e <= |q| && q[i..i + 2] == "{{" && q[j..k] == key && q[e - 2..e] == "}}"
    ensures q[i..e] == HoleText(q[i + 2..j], key, q[k..e - 2])
  {
    CutOnce(q, i, i + 2, e);
    CutOnce(q, i + 2, j, e);
    CutOnce(q, j, k, e);
    CutOnce(q, k, e - 2, e);
    FiveInOne(q[i..i + 2], q[i + 2..j], q[j..k], q[k..e - 2], q[e - 2..e]);
  }

  lemma Around(q: string, i: nat, e: nat)
    requires i <= e <= |q|
    ensures q == q[..i] + q[i..e] + q[e..]
  {
  }

  lemma HoleAtBetween(q: string, key: string, i: nat, e: nat)
    requires HoleAt(q, key, i, e)
    ensures HoleBetween(q, key, q[..i], q[e..])
  {
    var j :| i + 2 <= j <= e - 2 && PaddedKey(q, key, i, j, e);
    InnerIs(q, key, i, j, j + |key|, e);
    Around(q, i, e);
    assert AllSpace(q[i + 2..j]) && AllSpace(q[j + |key|..e - 2]);
  }

  lemma CutOnce(q: string, i: nat, j: nat, e: nat)
    requires i <= j <= e <= |q|
    ensures q[i..e] == q[i..j] + q[j..e]
  {
  }

  lemma FiveInOne(a: string, b: string, c: string, d: string, e: string)
    ensures a + (b + (c + (d + e))) == a + b + c + d + e
  {
  }

  lemma BracketsAround(q: string, i: nat, e: nat)
    requires i <= e <= |q|
    ensures InBrackets(q, i, e) <==>
            exists l, s, t, r :: q[..i] == l + "[" + s && q[e..] == t + "]" + r && AllSpace(s) && AllSpace(t)
  {
    if a, b :| 0 <= a < i && e <= b < |q| && q[a] == '[' && AllSpace(q[a + 1..i]) && AllSpace(q[e..b]) && q[b] == ']' {
      assert q[..i] == q[..a] + "[" + q[a + 1..i];
      assert q[e..] == q[e..b] + "]" + q[b + 1..];
    }
    if l, s, t, r :| q[..i] == l + "[" + s && q[e..] == t + "]" + r && AllSpace(s) && AllSpace(t) {
      Located(q, i, e, l, '[', s, t, ']', r);
    }
  }

  lemma Located(q: string, i: nat, e: nat, l: string, c: char, s: string, t: string, d: char, r: string)
    requires i <= e <= |q| && q[..i] == l + [c] + s && q[e..] == t + [d] + r
    ensures var a, b := |l|, e + |t|;
            a < i && b < |q| && q[a] == c && q[b] == d && q[a + 1..i] == s && q[e..b] == t
  {
    var a, b := |l|, e + |t|;
    assert |q[..i]| == i && |q[e..]| == |q| - e;
    assert q[a] == q[..i][a] && q[b] == q[e..][|t|];
    assert q[a + 1..i] == q[..i][a + 1..] && q[e..b] == q[e..][..|t|];
  }

  lemma QuotesAround(q: string, i: nat, e: nat)
    requires i <= e <= |q|
    ensures InQuotes(q, i, e) <==>
            exists l, s, t, r :: q[..i] == l + "'" + s && q[e..] == t + "'" + r && OneLineUnquoted(s) && OneLineUnquoted(t)
  {
    if a, b :| 0 <= a < i && e <= b < |q| && q[a] == QUOTE && OneLineUnquoted(q[a + 1..i]) && OneLineUnquoted(q[e..b]) && q[b] == QUOTE {
      assert q[..i] == q[..a] + "'" + q[a + 1..i];
      assert q[e..] == q[e..b] + "'" + q[b + 1..];
    }
    if l, s, t, r :| q[..i] == l + "'" + s && q[e..] == t + "'" + r && OneLineUnquoted(s) && OneLineUnquoted(t) {
      Located(q, i, e, l, '\'', s, t, '\'', r);
    }
  }

  lemma UnderscoreBefore(left: string)
    ensures (|left| >= 2 && left[|left| - 1] == '_' && IsWord(left[|left| - 2])) <==> exists l, c :: left == l + [c] + "_" && IsWord(c)
  {
    var i := |left|;
    if i >= 2 && left[i - 1] == '_' && IsWord(left[i - 2]) { assert left == left[..i - 2] + [left[i - 2]] + "_"; }
  }

  lemma UnderscoreAfter(right: string)
    ensures (|right| >= 2 && right[0] == '_' && IsWord(right[1])) <==> exists c, r :: right == "_" + [c] + r && IsWord(c)
  {
    if |right| >= 2 && right[0] == '_' && IsWord(right[1]) { assert right == "_" + [right[1]] + right[2..]; }
  }

  lemma NamesAt(q: string, i: nat, e: nat)
    requires i <= e <= |q|
    ensures NamesSomething(q[..i], q[e..]) <==> InContext(q, i, e)
  {
    BracketsAround(q, i, e);
    QuotesAround(q, i, e);
    UnderscoreBefore(q[..i]);
    UnderscoreAfter(q[e..]);
  }

  lemma BetweenIsAt(q: string, key: string, left: string, right: string)
    requires HoleBetween(q, key, left, right) && NamesSomething(left, right)
    ensures IsIdentifier(q, key)
  {
    HoleAtIs(q, key, left, right);
    var i, e := |left|, |q| - |right|;
    var before, after :| AllSpace(before) && AllSpace(after) && q == left + HoleText(before, key, after) + right;
    assert q[..i] == left && q[e..] == right;
    NamesAt(q, i, e);
  }

  /** A parameter is in an identifier position exactly when one of its placeholders stands in brackets, on
      one line between two quotes, after a word and an underscore, or before an underscore and a word. */
  lemma IdentifierIff(q: string, key: string)
    ensures IsIdentifier(q, key) <==> exists left, right :: HoleBetween(q, key, left, right) && NamesSomething(left, right)
  {
    if left, right :| HoleBetween(q, key, left, right) && NamesSomething(left, right) {
      BetweenIsAt(q, key, left, right);
    } else if IsIdentifier(q, key) {
      var i, e :| 0 <= i <= |q| && 0 <= e <= |q| && HoleAt(q, key, i, e) && InContext(q, i, e);
      HoleAtBetween(q, key, i, e);
      NamesAt(q, i, e);
    }
  }

  datatype Param = Param(key: string, value: Value)

  predicate DistinctKeys(params: seq<Param>) {
    forall i, j :: 0 <= i < j < |params| ==> params[i].key != params[j].key
  }

  predicate Named(params: seq<Param>, name: string) {
    exists i :: 0 <= i < |params| && params[i].key == name
  }

  /** Every parameter, in order, escaped for this query. */
  ghost predicate EscapedParameters(q: string, params: seq<Param>, escaped: map<string, string>) {
    && (forall k :: k in escaped <==> Named(params, k))
    && (forall i :: 0 <= i < |params| ==> EscapedAs(q, params[i], escaped))
  }

  ghost predicate EscapedAs(q: string, p: Param, escaped: map<string, string>) {
    p.key in escaped && EscapeParameter(q, p.key, p.value) == Ok(escaped[p.key])
  }

  method EscapeOne(q: string, key: string, v: Value) returns (r: Result<string, Error>)
    ensures r == EscapeParameter(q, key, v)
    ensures r.Err? ==> r.error == InvalidIdentifier(key)
  {
    if IsIdentifier(q, key) {
      if v.Text? && !SafeIdentifier(v.s) { return Err(InvalidIdentifier(key)); }
      r := Ok(Printed(v));
    } else {
      r := Ok(EscapeValue(v));
    }
  }

  lemma EscapeMore(q: string, params: seq<Param>, escaped: map<string, string>, p: Param, text: string)
    requires EscapedParameters(q, params, escaped) && !Named(params, p.key)
    requires EscapeParameter(q, p.key, p.value) == Ok(text)
    ensures EscapedParameters(q, params + [p], escaped[p.key := text])
  {
    var more, later := params + [p], escaped[p.key := text];
    forall k ensures k in later <==> Named(more, k) {
      if Named(params, k) {
        var i :| 0 <= i < |params| && params[i].key == k;
        assert more[i].key == k;
      }
      assert more[|params|].key == p.key;
    }
    forall i | 0 <= i < |more| ensures EscapedAs(q, more[i], later) {
      if i < |params| { assert EscapedAs(q, params[i], escaped) && params[i].key != p.key; }
    }
  }

  /** An identifier may consist of these characters. */
  ghost predicate Harmless(s: string) {
    forall c :: c in s ==> 'a' <= c <= 'z' || 'A' <= c <= 'Z' || '0' <= c <= '9' || c == '_' || c == '-' || c == ' ' || c == '/'
  }

  lemma HarmlessIs(s: string)
    ensures SafeIdentifier(s) <==> Harmless(s)
  {
    assert forall c :: c in "_- /" <==> c == '_' || c == '-' || c == ' ' || c == '/';
    if Harmless(s) { assert forall i :: 0 <= i < |s| ==> s[i] in s; }
  }

  /** A parameter is refused exactly when it is a text in an identifier position with other characters. */
  lemma RefusedIff(q: string, key: string, v: Value)
    ensures EscapeParameter(q, key, v).Err? <==> IsIdentifier(q, key) && exists s :: v == Text(s) && !Harmless(s)
  {
    if v.Text? { HarmlessIs(v.s); }
  }

  /** What a value becomes where values stand: a keyword, a number, or a literal that reads back as its text. */
  ghost predicate ValueText(v: Value, text: string) {
    match v
    case Null => text == "NULL"
    case Bool(b) => if b then text == "1" else text == "0"
    case Number(n) => text == n
    case Text(s) => ReadLiteral(text) == Some((s, ""))
    case Other(s) => ReadLiteral(text) == Some((s, ""))
  }

  /** What it becomes in an identifier: its printed form, and of a text only harmless characters. */
  ghost predicate IdentifierText(v: Value, text: string) {
    match v
    case Null => text == "None"
    case Bool(b) => if b then text == "True" else text == "False"
    case Number(n) => text == n
    case Text(s) => text == s && Harmless(s)
    case Other(s) => text == s
  }

  /** Every placeholder of a parameter becomes the same text, by the position of all of them together. */
  lemma PlaceholderBecomes(q: string, params: seq<Param>, escaped: map<string, string>, p: nat, token: Token)
    requires EscapedParameters(q, params, escaped) && p < |params|
    requires token.Hole? && token.name == params[p].key
    ensures Render(token, escaped).Ok?
    ensures var text := Render(token, escaped).value;
            if IsIdentifier(q, params[p].key) then IdentifierText(params[p].value, text) else ValueText(params[p].value, text)
  {
    var v := params[p].value;
    assert EscapedAs(q, params[p], escaped);
    if v.Text? {
      HarmlessIs(v.s);
      ReadsBack(v.s);
    }
    if v.Other? { ReadsBack(v.text); }
  }

  lemma ReadsBack(s: string)
    ensures ReadLiteral(Literal(s)) == Some((s, ""))
  {
    LiteralRoundTrip(s, "");
    assert Literal(s) + "" == Literal(s);
  }

  /** A substitution that fails names the first placeholder, from the left, that is malformed or names no
      parameter. */
  lemma {:induction false} FirstErrorIs(ts: seq<Token>, escaped: map<string, string>) returns (i: nat)
    requires RenderAll(ts, escaped).Err?
    ensures i < |ts| && RenderAll(ts[..i], escaped).Ok?
    ensures match ts[i]
            case Hole(_, name) => name !in escaped && RenderAll(ts, escaped).error == MissingParameter(name)
            case Bad(_) => RenderAll(ts, escaped).error == InvalidPlaceholder
            case _ => false
  {
    if Render(ts[0], escaped).Err? {
      i := 0;
    } else {
      var k := FirstErrorIs(ts[1..], escaped);
      i := k + 1;
      assert ts[..i][1..] == ts[1..][..k];
    }
  }

  /** `_substitute_named_parameters`. */
  method SubstituteNamedParameters(query: string, params: seq<Param>)
    returns (r: Result<string, Error>, ghost escaped: map<string, string>)
    requires DistinctKeys(params)
    ensures params == [] ==> r == Ok(query)
    ensures params != [] ==>
              if forall i :: 0 <= i < |params| ==> EscapeParameter(query, params[i].key, params[i].value).Ok?
              then EscapedParameters(query, params, escaped) && r == RenderAll(Tokens(query), escaped)
              else exists i :: 0 <= i < |params| && r == Err(InvalidIdentifier(params[i].key))
                               && EscapeParameter(query, params[i].key, params[i].value).Err?
  {
    escaped := map[];
    if params == [] { return Ok(query), escaped; }
    var done: map<string, string> := map[];
    for i := 0 to |params|
      invariant EscapedParameters(query, params[..i], done)
      invariant forall j :: 0 <= j < i ==> EscapeParameter(query, params[j].key, params[j].value).Ok?
    {
      var text := EscapeOne(query, params[i].key, params[i].value);
      if text.Err? { return Err(text.error), done; }
      assert params[..i + 1] == params[..i] + [params[i]];
      EscapeMore(query, params[..i], done, params[i], text.value);
      done := done[params[i].key := text.value];
    }
    assert params[..|params|] == params;
    escaped := done;
    r := RenderAll(Tokens(query), done);
  }

  /** A query can be substituted exactly when no `{{` is malformed and every placeholder names
      a parameter. */
  lemma SubstitutesIff(q: string, params: seq<Param>, escaped: map<string, string>)
    requires EscapedParameters(q, params, escaped)
    ensures RenderAll(Tokens(q), escaped).Ok? <==>
            forall i :: 0 <= i < |Tokens(q)| ==>
              && !Tokens(q)[i].Bad?
              && (Tokens(q)[i].Hole? ==> Named(params, Tokens(q)[i].name))
  {
    RendersIff(Tokens(q), escaped);
  }

  /** A string parameter in value position comes out, at each of its placeholders, as one
      literal between the substituted texts before and after it. Reading that literal gives
      back the exact value, placeholders inside it included, and stops where the following
      text begins, unless that text begins with a quote. */
  lemma ValueRoundTrip(q: string, params: seq<Param>, escaped: map<string, string>, p: nat, i: nat)
    requires EscapedParameters(q, params, escaped) && RenderAll(Tokens(q), escaped).Ok?
    requires p < |params| && params[p].value.Text? && !IsIdentifier(q, params[p].key)
    requires i < |Tokens(q)| && Tokens(q)[i].Hole? && Tokens(q)[i].name == params[p].key
    ensures var out := RenderAll(Tokens(q), escaped).value;
            var before, after := RenderAll(Tokens(q)[..i], escaped), RenderAll(Tokens(q)[i + 1..], escaped);
            && before.Ok? && after.Ok?
            && before.value <= out
            && out[|before.value|..] == Literal(params[p].value.s) + after.value
            && (ReadLiteral(out[|before.value|..]) == Some((params[p].value.s, after.value))
                <==> !BeginsWithQuote(after.value))
  {
    RendersAsLiteral(q, params, escaped, p, Tokens(q)[i]);
    RenderedLiteral(Tokens(q), escaped, i, params[p].value.s);
  }

  lemma RendersAsLiteral(q: string, params: seq<Param>, escaped: map<string, string>, p: nat, token: Token)
    requires EscapedParameters(q, params, escaped)
    requires p < |params| && params[p].value.Text? && !IsIdentifier(q, params[p].key)
    requires token.Hole? && token.name == params[p].key
    ensures Render(token, escaped) == Ok(Literal(params[p].value.s))
  {
  }

  lemma RenderedLiteral(ts: seq<Token>, escaped: map<string, string>, i: nat, v: string)
    requires RenderAll(ts, escaped).Ok? && i < |ts| && Render(ts[i], escaped) == Ok(Literal(v))
    ensures var out := RenderAll(ts, escaped).value;
            var before, after := RenderAll(ts[..i], escaped), RenderAll(ts[i + 1..], escaped);
            && before.Ok? && after.Ok?
            && before.value <= out
            && out[|before.value|..] == Literal(v) + after.value
            && (ReadLiteral(out[|before.value|..]) == Some((v, after.value)) <==> !BeginsWithQuote(after.value))
  {
    RenderSplit(ts, escaped, i);
    var before, after := RenderAll(ts[..i], escaped).value, RenderAll(ts[i + 1..], escaped).value;
    assert RenderAll(ts, escaped).value == before + (Literal(v) + after);
    LiteralRoundTrip(v, after);
  }
}
