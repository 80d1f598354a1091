/** The dynamic search query of findAll: the text the builder appends step by step, the
    predicates that text stands for, and a parser that reads the text back. */
module SearchSql {
  import opened Wrappers
  import opened Text
  import opened Domain

  const SelectAll: string := "select id, item_name, price, quantity from item"
  const WhereText: string := " where"
  const AndText: string := " and"
  const NameLikeText: string := " item_name like concat('%', :itemName , '%')"
  const PriceAtMostText: string := " price <= :maxPrice"

  /** A predicate of the WHERE clause. */
  datatype Clause = NameLike | PriceAtMost

  function ClauseText(c: Clause): string
  {
    match c
    case NameLike => NameLikeText
    case PriceAtMost => PriceAtMostText
  }

  /** The named parameter a predicate binds. */
  function ParameterOf(c: Clause): string
  {
    match c
    case NameLike => "itemName"
    case PriceAtMost => "maxPrice"
  }

  /** The placeholder of a predicate's parameter in the query text. */
  function Placeholder(c: Clause): string
  {
    ":" + ParameterOf(c)
  }

  /** The predicates joined by " and". */
  function Conjunction(cs: seq<Clause>): string
    requires cs != []
  {
    if |cs| == 1 then ClauseText(cs[0]) else ClauseText(cs[0]) + AndText + Conjunction(cs[1..])
  }

  /** The select over all items, followed by a WHERE clause when there is any predicate. */
  function Render(cs: seq<Clause>): (sql: string)
    ensures SelectAll <= sql
    ensures sql == SelectAll <==> cs == []
  {
    if cs == [] then SelectAll else SelectAll + WhereText + Conjunction(cs)
  }

  /** Some filter of the condition is active. */
  predicate AnyFilter(cond: ItemSearchCond)
  {
    HasText(cond.itemName) || cond.maxPrice.Some?
  }

  /** The predicates a condition switches on: the name filter when the name has text, then the
      price bound when one is given. */
  function Clauses(cond: ItemSearchCond): (cs: seq<Clause>)
    ensures NameLike in cs <==> HasText(cond.itemName)
    ensures PriceAtMost in cs <==> cond.maxPrice.Some?
    ensures |cs| == 2 <==> HasText(cond.itemName) && cond.maxPrice.Some?
    ensures |cs| == 2 ==> cs == [NameLike, PriceAtMost]
    ensures cs == [] <==> !AnyFilter(cond)
  {
    (if HasText(cond.itemName) then [NameLike] else []) + (if cond.maxPrice.Some? then [PriceAtMost] else [])
  }

  /** findAll's text assembly: append " where" when a filter is active, the name predicate when
      the name has text, and " and" before the price predicate when the name predicate is there. */
  method BuildSearchSql(cond: ItemSearchCond) returns (sql: string)
    ensures sql == Render(Clauses(cond))
    ensures ParseSearchSql(sql) == Some(Clauses(cond))
  {
    var itemName := cond.itemName;
    var maxPrice := cond.maxPrice;
    sql := SelectAll;
    if HasText(itemName) || maxPrice.Some? {
      sql := sql + WhereText;
    }
    var andFlag := false;
    if HasText(itemName) {
      sql := sql + NameLikeText;
      andFlag := true;
    }
    if maxPrice.Some? {
      if andFlag {
        sql := sql + AndText;
      }
      sql := sql + PriceAtMostText;
    }
    SearchSqlTexts(cond);
    RenderRoundTrip(Clauses(cond));
  }

  /** The predicate whose text starts `s`, if any. */
  function LeadingClause(s: string): (c: Option<Clause>)
    ensures c.Some? ==> ClauseText(c.value) <= s
  {
    if NameLikeText <= s then Some(NameLike)
    else if PriceAtMostText <= s then Some(PriceAtMost)
    else None
  }

  /** Reads predicates separated by " and" until the text ends. */
  function ParseConjunction(s: string): (parsed: Option<seq<Clause>>)
    ensures parsed.Some? ==> parsed.value != [] && LeadingClause(s) == Some(parsed.value[0])
    decreases |s|
  {
    match LeadingClause(s)
    case None => None
    case Some(c) =>
      var rest := s[|ClauseText(c)|..];
      if rest == [] then Some([c])
      else if AndText <= rest then
        match ParseConjunction(rest[|AndText|..])
        case None => None
        case Some(cs) => Some([c] + cs)
      else None
  }

  /** How a store reads a search query: the select over all items, then nothing or a WHERE clause. */
  function ParseSearchSql(sql: string): (parsed: Option<seq<Clause>>)
    ensures parsed.Some? ==> SelectAll <= sql
    ensures parsed == Some([]) <==> sql == SelectAll
    ensures parsed.Some? && parsed.value != [] ==> WhereText <= sql[|SelectAll|..]
  {
    if !(SelectAll <= sql) then None
    else
      var rest := sql[|SelectAll|..];
      if rest == [] then Some([])
      else if WhereText <= rest then ParseConjunction(rest[|WhereText|..])
      else None
  }

  lemma LeadingClauseOf(c: Clause, t: string)
    ensures LeadingClause(ClauseText(c) + t) == Some(c)
  {
    if c == PriceAtMost {
      var s := PriceAtMostText + t;
      assert s[1] == 'p' != 'i' == NameLikeText[1];
    }
  }

  /** After a predicate's text, the parser sees either the end, or " and" and more predicates. */
  lemma ParseAfterClause(c: Clause, t: string)
    ensures ParseConjunction(ClauseText(c) + t) ==
      if t == [] then Some([c])
      else if AndText <= t then
        match ParseConjunction(t[|AndText|..])
        case None => None
        case Some(cs) => Some([c] + cs)
      else None
  {
    LeadingClauseOf(c, t);
    assert (ClauseText(c) + t)[|ClauseText(c)|..] == t;
  }

  lemma ParseSingleClause(c: Clause)
    ensures ParseConjunction(ClauseText(c)) == Some([c])
  {
    var t: string := [];
    ParseAfterClause(c, t);
    assert ClauseText(c) + t == ClauseText(c);
  }

  /** One more predicate in front of a list that already reads back. */
  lemma ParseConsClause(c: Clause, cs: seq<Clause>)
    requires cs != [] && ParseConjunction(Conjunction(cs)) == Some(cs)
    ensures ParseConjunction(Conjunction([c] + cs)) == Some([c] + cs)
  {
    var rest := Conjunction(cs);
    var tail := AndText + rest;
    assert tail != [] && AndText <= tail && tail[|AndText|..] == rest;
    ParseAfterClause(c, tail);
    assert ([c] + cs)[1..] == cs;
    assert Conjunction([c] + cs) == ClauseText(c) + tail;
  }

  lemma {:induction false} ConjunctionRoundTrip(cs: seq<Clause>)
    requires cs != []
    ensures ParseConjunction(Conjunction(cs)) == Some(cs)
  {
    if |cs| == 1 {
      ParseSingleClause(cs[0]);
      assert cs == [cs[0]];
    } else {
      ConjunctionRoundTrip(cs[1..]);
      ParseConsClause(cs[0], cs[1..]);
      assert [cs[0]] + cs[1..] == cs;
    }
  }

  /** The text of any predicate list reads back as that list: the text says exactly which
      predicates are active and in which order. */
  lemma {:induction false} RenderRoundTrip(cs: seq<Clause>)
    ensures ParseSearchSql(Render(cs)) == Some(cs)
  {
    if cs != [] {
      ParseWhere(Conjunction(cs));
      ConjunctionRoundTrip(cs);
    }
  }

  /** After the base select and " where", the store reads the rest as a conjunction. */
  lemma ParseWhere(conj: string)
    ensures ParseSearchSql(SelectAll + WhereText + conj) == ParseConjunction(conj)
  {
    var sql := SelectAll + WhereText + conj;
    var rest := WhereText + conj;
    assert SelectAll <= sql && sql[|SelectAll|..] == rest;
    assert rest != [] && WhereText <= rest && rest[|WhereText|..] == conj;
  }

  /** Different predicate lists never produce the same text. */
  lemma RenderInjective(a: seq<Clause>, b: seq<Clause>)
    requires Render(a) == Render(b)
    ensures a == b
  {
    RenderRoundTrip(a);
    RenderRoundTrip(b);
  }

  /** The query always starts with the select over all items; it is exactly that select when no
      filter is active, and " where" follows it when one is. */
  lemma SearchSqlShape(cond: ItemSearchCond)
    ensures SelectAll <= Render(Clauses(cond))
    ensures Render(Clauses(cond)) == SelectAll <==> !AnyFilter(cond)
    ensures AnyFilter(cond) ==> WhereText <= Render(Clauses(cond))[|SelectAll|..]
  {
    var cs := Clauses(cond);
    if AnyFilter(cond) {
      assert cs != [];
      var rest := WhereText + Conjunction(cs);
      assert Render(cs) == SelectAll + rest;
      assert Render(cs)[|SelectAll|..] == rest;
      assert |Render(cs)| > |SelectAll|;
    } else {
      assert cs == [];
    }
  }

  /** Each predicate's text carries the placeholder of the parameter it binds. */
  lemma ParameterInClauseText(c: Clause)
    ensures Contains(ClauseText(c), Placeholder(c))
  {
    match c
    case NameLike =>
      assert Placeholder(c) <= NameLikeText[28..];
    case PriceAtMost =>
      assert Placeholder(c) <= PriceAtMostText[10..];
  }

  /** A query with one predicate carries that predicate's placeholder. */
  lemma PlaceholderOfSingle(c: Clause)
    ensures Contains(SelectAll + WhereText + ClauseText(c), Placeholder(c))
  {
    ParameterInClauseText(c);
    ContainsAtEnd(SelectAll + WhereText, ClauseText(c), Placeholder(c));
  }

  /** The query with both predicates carries both placeholders. */
  lemma PlaceholdersOfBoth()
    ensures var sql := SelectAll + WhereText + ClauseText(NameLike) + AndText + ClauseText(PriceAtMost);
            Contains(sql, Placeholder(NameLike)) && Contains(sql, Placeholder(PriceAtMost))
  {
    ParameterInClauseText(NameLike);
    ParameterInClauseText(PriceAtMost);
    ContainsInSecond(SelectAll + WhereText, ClauseText(NameLike), AndText, ClauseText(PriceAtMost), Placeholder(NameLike));
    ContainsAtEnd(SelectAll + WhereText + ClauseText(NameLike) + AndText, ClauseText(PriceAtMost), Placeholder(PriceAtMost));
  }

  /** Every predicate of the query has its parameter's placeholder in the query text: :itemName
      when the name has text, :maxPrice when a bound is given. */
  lemma PlaceholdersInStatement(cond: ItemSearchCond)
    ensures forall c :: c in Clauses(cond) ==> Contains(Render(Clauses(cond)), Placeholder(c))
  {
    SearchSqlTexts(cond);
    if HasText(cond.itemName) && cond.maxPrice.Some? {
      PlaceholdersOfBoth();
    } else if HasText(cond.itemName) {
      PlaceholderOfSingle(NameLike);
    } else if cond.maxPrice.Some? {
      PlaceholderOfSingle(PriceAtMost);
    }
  }

  /** The four texts the builder can produce. */
  lemma SearchSqlTexts(cond: ItemSearchCond)
    ensures !AnyFilter(cond) ==> Render(Clauses(cond)) == SelectAll
    ensures HasText(cond.itemName) && cond.maxPrice.None? ==>
      Render(Clauses(cond)) == SelectAll + WhereText + NameLikeText
    ensures !HasText(cond.itemName) && cond.maxPrice.Some? ==>
      Render(Clauses(cond)) == SelectAll + WhereText + PriceAtMostText
    ensures HasText(cond.itemName) && cond.maxPrice.Some? ==>
      Render(Clauses(cond)) == SelectAll + WhereText + NameLikeText + AndText + PriceAtMostText
  {
    var cs := Clauses(cond);
    if HasText(cond.itemName) && cond.maxPrice.Some? {
      assert cs == [NameLike, PriceAtMost] && cs[1..] == [PriceAtMost];
      assert Conjunction(cs) == NameLikeText + AndText + PriceAtMostText;
      assert SelectAll + WhereText + (NameLikeText + AndText + PriceAtMostText)
          == SelectAll + WhereText + NameLikeText + AndText + PriceAtMostText;
    }
  }

  /** An empty or whitespace-only name builds the same query as a null one. */
  lemma BlankNameIsAbsent(name: string, maxPrice: Option<int>)
    requires !HasText(Some(name))
    ensures Render(Clauses(ItemSearchCond(Some(name), maxPrice))) == Render(Clauses(ItemSearchCond(None, maxPrice)))
  {
  }
}
