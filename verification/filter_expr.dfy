/** Filter expressions as the search backend receives them: `field:=value`
    clauses joined by the conjunction separator `" && "`. Reading an
    expression back into its clauses is the partner of writing one. */
module FilterExpr {
  import opened Wrappers

  /** One equality clause `field:=value`. */
  datatype Clause = Clause(field: string, value: string)

  const Separator: string := " && "

  function RenderClause(c: Clause): string {
    c.field + ":=" + c.value
  }

  function RenderClauses(cs: seq<Clause>): (parts: seq<string>)
    ensures |parts| == |cs|
    ensures forall i :: 0 <= i < |cs| ==> parts[i] == RenderClause(cs[i])
  {
    if |cs| == 0 then [] else [RenderClause(cs[0])] + RenderClauses(cs[1..])
  }

  /** `parts.join(sep)` */
  function Join(parts: seq<string>, sep: string): string {
    if |parts| == 0 then ""
    else if |parts| == 1 then parts[0]
    else parts[0] + sep + Join(parts[1..], sep)
  }

  /** The filter parameter built from a list of clauses: the clauses joined
      by the separator, or no parameter at all when the list is empty. */
  function FilterBy(cs: seq<Clause>): (r: Option<string>)
    ensures r.None? <==> |cs| == 0
  {
    if |cs| > 0 then Some(Join(RenderClauses(cs), Separator)) else None
  }

  // ---------------------------------------------------------------------
  // Reading an expression back

  /** Index of the first occurrence of `c` in `s`. */
  function IndexOf(s: string, c: char): (r: Option<nat>)
    ensures r.None? <==> c !in s
    ensures r.Some? ==> r.value < |s| && s[r.value] == c && c !in s[..r.value]
  {
    if |s| == 0 then None
    else if s[0] == c then Some(0)
    else match IndexOf(s[1..], c)
      case None => None
      case Some(i) => assert s[..i + 1] == [s[0]] + s[1..][..i]; Some(i + 1)
  }

  /** Splits an expression at each separator, using `&` (which only the
      separator contains in a well-formed expression) to find them. */
  function SplitConjunction(s: string): (parts: seq<string>)
    ensures |parts| > 0
    decreases |s|
  {
    match IndexOf(s, '&')
    case None => [s]
    case Some(i) =>
      if 1 <= i && i + 3 <= |s| && s[i - 1..i + 3] == Separator
      then [s[..i - 1]] + SplitConjunction(s[i + 3..])
      else [s]
  }

  /** Reads `field:=value`, splitting at the first `:`. */
  function ParseClause(s: string): Option<Clause> {
    match IndexOf(s, ':')
    case None => None
    case Some(i) =>
      if i + 1 < |s| && s[i + 1] == '=' then Some(Clause(s[..i], s[i + 2..])) else None
  }

  function ParseClauses(parts: seq<string>): Option<seq<Clause>> {
    if |parts| == 0 then Some([])
    else match (ParseClause(parts[0]), ParseClauses(parts[1..]))
      case (Some(c), Some(rest)) => Some([c] + rest)
      case _ => None
  }

  /** The clauses a filter parameter denotes; an absent parameter is no clause. */
  function ParseFilterBy(f: Option<string>): Option<seq<Clause>> {
    match f
    case None => Some([])
    case Some(s) => ParseClauses(SplitConjunction(s))
  }

  /** A clause that can be written and read back unambiguously. */
  predicate Unambiguous(c: Clause) {
    PlainField(c.field) && '&' !in c.value
  }

  /** A field name made of plain characters: no `:` and no `&`. */
  predicate PlainField(field: string) {
    ':' !in field && '&' !in field
  }

  predicate AllUnambiguous(cs: seq<Clause>) {
    forall i :: 0 <= i < |cs| ==> Unambiguous(cs[i])
  }

  // ---------------------------------------------------------------------
  // Round trip

  lemma IndexAfterPrefix(p: string, rest: string)
    requires '&' !in p
    ensures IndexOf(p + Separator + rest, '&') == Some(|p| + 1)
  {
    var s := p + Separator + rest;
    assert s[..|p| + 1] == p + " ";
    assert s[|p| + 1] == '&';
  }

  /** Splitting at the first separator of `p + " && " + rest`. */
  lemma SplitStep(p: string, rest: string)
    requires '&' !in p
    ensures SplitConjunction(p + Separator + rest) == [p] + SplitConjunction(rest)
  {
    var s := p + Separator + rest;
    IndexAfterPrefix(p, rest);
    assert s[|p|..|p| + 4] == Separator;
    assert s[..|p|] == p;
    assert s[|p| + 4..] == rest;
  }

  lemma {:induction false} SplitJoin(parts: seq<string>)
    requires |parts| > 0
    requires forall i :: 0 <= i < |parts| ==> '&' !in parts[i]
    ensures SplitConjunction(Join(parts, Separator)) == parts
    decreases |parts|
  {
    if |parts| == 1 {
      assert Join(parts, Separator) == parts[0];
    } else {
      var rest := Join(parts[1..], Separator);
      assert Join(parts, Separator) == parts[0] + Separator + rest;
      SplitStep(parts[0], rest);
      SplitJoin(parts[1..]);
      assert [parts[0]] + parts[1..] == parts;
    }
  }

  lemma ClauseRoundTrip(c: Clause)
    requires Unambiguous(c)
    ensures ParseClause(RenderClause(c)) == Some(c)
  {
    var s := RenderClause(c);
    assert s[..|c.field|] == c.field;
    assert s[|c.field|] == ':';
    assert s[|c.field| + 2..] == c.value;
  }

  lemma {:induction false} ClausesRoundTrip(cs: seq<Clause>)
    requires AllUnambiguous(cs)
    ensures ParseClauses(RenderClauses(cs)) == Some(cs)
    decreases |cs|
  {
    if |cs| > 0 {
      ClauseRoundTrip(cs[0]);
      ClausesRoundTrip(cs[1..]);
      assert RenderClauses(cs)[1..] == RenderClauses(cs[1..]);
      assert [cs[0]] + cs[1..] == cs;
    }
  }

  /** Reading back a filter parameter yields exactly the clauses it was built
      from, in the same order. */
  lemma FilterByRoundTrip(cs: seq<Clause>)
    requires AllUnambiguous(cs)
    ensures ParseFilterBy(FilterBy(cs)) == Some(cs)
  {
    if |cs| > 0 {
      var parts := RenderClauses(cs);
      forall i | 0 <= i < |parts|
        ensures '&' !in parts[i]
      {
        assert parts[i] == cs[i].field + ":=" + cs[i].value;
      }
      SplitJoin(parts);
      ClausesRoundTrip(cs);
    }
  }
}
