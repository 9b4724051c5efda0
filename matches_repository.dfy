/**
 * The matches repository's statement builder: the WHERE clause grows one
 * condition per present filter, each filter value is appended to the
 * argument list, and `argIndex` numbers the next placeholder. The list adds
 * a count statement and LIMIT/OFFSET; the export stream uses the same WHERE
 * and ORDER BY without a limit. Evaluating a statement is the database's
 * business: its results reach the services as inputs.
 */
module MatchesRepository {
  import opened Base
  import opened Text
  import opened MatchesTypes

  /** A bound argument of a statement. */
  datatype SqlArg = TextArg(text: string) | TimeArg(time: Time) | IntArg(n: int)

  datatype Statement = Statement(sql: seq<Token>, args: seq<SqlArg>)

  /** A condition of the WHERE clause; `p` is the number of the placeholder it reads. */
  datatype Condition =
    | KeywordIs(p: nat)
    | TextLike(p: nat)
    | IssuerLike(p: nat)
    | FirstSeenFrom(p: nat)
    | FirstSeenUntil(p: nat)
    | OnlyNew

  /** The fixed pieces of SQL text the statements are made of. */
  datatype Word =
    | SelectCount | SelectColumns | FromWhereNotDeleted
    | AndNormalizedValueIs | AndOpenDomainLike | AndOpenIssuerCNLike | OrIssuerCNLike | OrIssuerOrgLike | Close
    | AndFirstSeenFrom | AndFirstSeenUntil | AndIsNew
    | OrderByLastSeen | OrderByDomain | OrderByFirstSeen
    | Limit | Offset

  /** Statement text: fixed words and numbered placeholders. */
  datatype Token = W(word: Word) | P(p: nat)

  /**
   * The SQL text of each fixed piece. The keywords, columns and operators are
   * those of the repository's statements; the whitespace inside the column list
   * of SelectColumns is a single space where the repository's literal breaks
   * lines and indents, which the database reads the same way.
   */
  function WordText(w: Word): string {
    match w
    case SelectCount => "SELECT COUNT(*) "
    case SelectColumns =>
      "SELECT mc.id, mc.keyword_id, k.keyword, mc.certificate_sha256, mc.matched_field, mc.matched_value, " +
      "mc.domain_name, mc.issuer_cn, mc.issuer_org, mc.subject_cn, mc.subject_org, " +
      "mc.not_before, mc.not_after, mc.first_seen_at, mc.last_seen_at, mc.is_new, mc.ct_log_index "
    case FromWhereNotDeleted =>
      "FROM matched_certificates mc JOIN keywords k ON mc.keyword_id = k.id WHERE k.is_deleted = FALSE"
    case AndNormalizedValueIs => " AND k.normalized_value = "
    case AndOpenDomainLike => " AND (mc.domain_name ILIKE "
    case AndOpenIssuerCNLike => " AND (mc.issuer_cn ILIKE "
    case OrIssuerCNLike => " OR mc.issuer_cn ILIKE "
    case OrIssuerOrgLike => " OR mc.issuer_org ILIKE "
    case Close => ")"
    case AndFirstSeenFrom => " AND mc.first_seen_at >= "
    case AndFirstSeenUntil => " AND mc.first_seen_at <= "
    case AndIsNew => " AND mc.is_new = TRUE"
    case OrderByLastSeen => " ORDER BY mc.last_seen_at DESC"
    case OrderByDomain => " ORDER BY mc.domain_name ASC NULLS LAST"
    case OrderByFirstSeen => " ORDER BY mc.first_seen_at DESC"
    case Limit => " LIMIT "
    case Offset => " OFFSET "
  }

  /** The text sent to the database. */
  function Render(ts: seq<Token>): string
    decreases |ts|
  {
    if ts == [] then ""
    else Render(ts[..|ts| - 1]) + (match ts[|ts| - 1] case W(w) => WordText(w) case P(p) => "$" + NatToString(p))
  }

  function ConditionSql(c: Condition): seq<Token> {
    match c
    case KeywordIs(p) => [W(AndNormalizedValueIs), P(p)]
    case TextLike(p) => [W(AndOpenDomainLike), P(p), W(OrIssuerCNLike), P(p), W(OrIssuerOrgLike), P(p), W(Close)]
    case IssuerLike(p) => [W(AndOpenIssuerCNLike), P(p), W(OrIssuerOrgLike), P(p), W(Close)]
    case FirstSeenFrom(p) => [W(AndFirstSeenFrom), P(p)]
    case FirstSeenUntil(p) => [W(AndFirstSeenUntil), P(p)]
    case OnlyNew => [W(AndIsNew)]
  }

  function WhereSql(conds: seq<Condition>): seq<Token>
    decreases |conds|
  {
    if conds == [] then [] else WhereSql(conds[..|conds| - 1]) + ConditionSql(conds[|conds| - 1])
  }

  /** Every placeholder of the text is bound: its number is between 1 and the number of arguments. */
  predicate PlaceholdersBound(ts: seq<Token>, args: seq<SqlArg>) {
    forall i :: 0 <= i < |ts| && ts[i].P? ==> 1 <= ts[i].p <= |args|
  }

  /** The placeholder numbers the conditions read, in order. */
  function Placeholders(conds: seq<Condition>): seq<nat>
    decreases |conds|
  {
    if conds == [] then []
    else
      var last := conds[|conds| - 1];
      Placeholders(conds[..|conds| - 1]) + (if last.OnlyNew? then [] else [last.p])
  }

  // ------------------------------------------------------- specification

  /** The filters of a query, in the order the builder tests them. */
  datatype Filter = ByKeyword | ByText | ByIssuer | ByDateFrom | ByDateTo | ByNewOnly

  const FilterOrder: seq<Filter> := [ByKeyword, ByText, ByIssuer, ByDateFrom, ByDateTo, ByNewOnly]

  predicate Present(query: ListQuery, f: Filter) {
    match f
    case ByKeyword => query.keyword != ""
    case ByText => query.q != ""
    case ByIssuer => query.issuer != ""
    case ByDateFrom => query.dateFrom.Some?
    case ByDateTo => query.dateTo.Some?
    case ByNewOnly => query.newOnly
  }

  /** The value a present filter binds: the lower-cased keyword, a substring pattern, or a time. */
  function ArgOf(query: ListQuery, f: Filter): SqlArg
    requires Present(query, f) && f != ByNewOnly
  {
    match f
    case ByKeyword => TextArg(Lower(query.keyword))
    case ByText => TextArg("%" + query.q + "%")
    case ByIssuer => TextArg("%" + query.issuer + "%")
    case ByDateFrom => TimeArg(query.dateFrom.value)
    case ByDateTo => TimeArg(query.dateTo.value)
  }

  /** The condition of a filter reading placeholder `p`. */
  function ConditionOf(f: Filter, p: nat): Condition {
    match f
    case ByKeyword => KeywordIs(p)
    case ByText => TextLike(p)
    case ByIssuer => IssuerLike(p)
    case ByDateFrom => FirstSeenFrom(p)
    case ByDateTo => FirstSeenUntil(p)
    case ByNewOnly => OnlyNew
  }

  /** The conditions and the arguments gathered so far. */
  datatype Gathered = Gathered(conds: seq<Condition>, args: seq<SqlArg>)

  /** One filter step: a present filter adds its condition, reading the next placeholder, and its value. */
  function Step(query: ListQuery, f: Filter, g: Gathered): Gathered {
    if !Present(query, f) then g
    else if f == ByNewOnly then Gathered(g.conds + [OnlyNew], g.args)
    else Gathered(g.conds + [ConditionOf(f, |g.args| + 1)], g.args + [ArgOf(query, f)])
  }

  /** The conditions and arguments after the first `n` filters. */
  function Stage(query: ListQuery, n: nat): Gathered
    requires n <= |FilterOrder|
  {
    if n == 0 then Gathered([], []) else Step(query, FilterOrder[n - 1], Stage(query, n - 1))
  }

  /** The conditions of a query: one per present filter, in filter order. */
  function Conditions(query: ListQuery): seq<Condition> {
    Stage(query, |FilterOrder|).conds
  }

  /** The filter arguments of a query, in placeholder order. */
  function FilterArgs(query: ListQuery): seq<SqlArg> {
    Stage(query, |FilterOrder|).args
  }

  /** What each condition's placeholder must be bound to, and that its filter is present. */
  predicate BoundTo(c: Condition, args: seq<SqlArg>, query: ListQuery) {
    match c
    case KeywordIs(p) => query.keyword != "" && 1 <= p <= |args| && args[p - 1] == TextArg(Lower(query.keyword))
    case TextLike(p) => query.q != "" && 1 <= p <= |args| && args[p - 1] == TextArg("%" + query.q + "%")
    case IssuerLike(p) => query.issuer != "" && 1 <= p <= |args| && args[p - 1] == TextArg("%" + query.issuer + "%")
    case FirstSeenFrom(p) => query.dateFrom.Some? && 1 <= p <= |args| && args[p - 1] == TimeArg(query.dateFrom.value)
    case FirstSeenUntil(p) => query.dateTo.Some? && 1 <= p <= |args| && args[p - 1] == TimeArg(query.dateTo.value)
    case OnlyNew => query.newOnly
  }

  /** The order of a sort name; an unknown name sorts by first-seen time. */
  function OrderBy(sort: string): (w: Word)
    ensures sort == SortLastSeenDesc <==> w == OrderByLastSeen
    ensures sort == SortDomainAsc <==> w == OrderByDomain
    ensures sort != SortLastSeenDesc && sort != SortDomainAsc <==> w == OrderByFirstSeen
  {
    if sort == SortLastSeenDesc then OrderByLastSeen
    else if sort == SortDomainAsc then OrderByDomain
    else OrderByFirstSeen
  }

  // --------------------------------------------------------- properties

  lemma {:induction false} WhereSqlAppend(a: seq<Condition>, b: seq<Condition>)
    ensures WhereSql(a + b) == WhereSql(a) + WhereSql(b)
    decreases |b|
  {
    if b == [] {
      assert a + b == a;
    } else {
      assert (a + b)[..|a + b| - 1] == a + b[..|b| - 1];
      assert (a + b)[|a + b| - 1] == b[|b| - 1];
      WhereSqlAppend(a, b[..|b| - 1]);
    }
  }

  /** A gathered state whose placeholders are 1, 2, ..., one per argument, each bound to its filter's value. */
  predicate WellNumbered(g: Gathered, query: ListQuery) {
    && Placeholders(g.conds) == seq(|g.args|, i => i + 1)
    && forall i :: 0 <= i < |g.conds| ==> BoundTo(g.conds[i], g.args, query)
  }

  /** Binding survives appending arguments. */
  lemma BoundToExtend(c: Condition, args: seq<SqlArg>, more: seq<SqlArg>, query: ListQuery)
    requires BoundTo(c, args, query)
    ensures BoundTo(c, args + more, query)
  {
    if !c.OnlyNew? {
      assert (args + more)[c.p - 1] == args[c.p - 1];
    }
  }

  /** A step keeps the numbering: a new argument is read by exactly the new condition, which reads it alone. */
  lemma StepWellNumbered(query: ListQuery, f: Filter, g: Gathered)
    requires WellNumbered(g, query)
    ensures WellNumbered(Step(query, f, g), query)
  {
    var h := Step(query, f, g);
    if Present(query, f) {
      var c := h.conds[|h.conds| - 1];
      assert h.conds[..|h.conds| - 1] == g.conds;
      forall i | 0 <= i < |g.conds|
        ensures BoundTo(h.conds[i], h.args, query)
      {
        BoundToExtend(g.conds[i], g.args, h.args[|g.args|..], query);
        assert g.args + h.args[|g.args|..] == h.args;
      }
      if f != ByNewOnly {
        assert c == ConditionOf(f, |g.args| + 1);
        assert BoundTo(c, h.args, query);
        assert Placeholders(h.conds) == Placeholders(g.conds) + [|g.args| + 1];
      }
    }
  }

  lemma {:induction false} StageWellNumbered(query: ListQuery, n: nat)
    requires n <= |FilterOrder|
    ensures WellNumbered(Stage(query, n), query)
    decreases n
  {
    if n > 0 {
      StageWellNumbered(query, n - 1);
      StepWellNumbered(query, FilterOrder[n - 1], Stage(query, n - 1));
    }
  }

  /**
   * Every present filter appends exactly one argument and reads the next
   * placeholder: the placeholders are 1, 2, ..., one per argument.
   */
  lemma PlaceholdersNumberArgs(query: ListQuery)
    ensures Placeholders(Conditions(query)) == seq(|FilterArgs(query)|, i => i + 1)
  {
    StageWellNumbered(query, |FilterOrder|);
  }

  /** Each condition reads the value of its own filter, which is present. */
  lemma ConditionsBound(query: ListQuery)
    ensures forall i :: 0 <= i < |Conditions(query)| ==> BoundTo(Conditions(query)[i], FilterArgs(query), query)
  {
    StageWellNumbered(query, |FilterOrder|);
  }

  /** The filter a condition comes from. */
  function KindOf(c: Condition): (f: Filter)
    ensures c == ConditionOf(f, if c.OnlyNew? then 0 else c.p)
  {
    match c
    case KeywordIs(_) => ByKeyword
    case TextLike(_) => ByText
    case IssuerLike(_) => ByIssuer
    case FirstSeenFrom(_) => ByDateFrom
    case FirstSeenUntil(_) => ByDateTo
    case OnlyNew => ByNewOnly
  }

  function Kinds(conds: seq<Condition>): seq<Filter> {
    seq(|conds|, i requires 0 <= i < |conds| => KindOf(conds[i]))
  }

  /** The filters present among the first `n`, in filter order. */
  function PresentAmong(query: ListQuery, n: nat): (fs: seq<Filter>)
    requires n <= |FilterOrder|
  {
    if n == 0 then []
    else PresentAmong(query, n - 1) + (if Present(query, FilterOrder[n - 1]) then [FilterOrder[n - 1]] else [])
  }

  /** After `n` filters there is one condition per present filter, in order; every present filter but new-only has an argument. */
  lemma {:induction false} StageKinds(query: ListQuery, n: nat)
    requires n <= |FilterOrder|
    ensures Kinds(Stage(query, n).conds) == PresentAmong(query, n)
    ensures |Stage(query, n).args| == |PresentAmong(query, n)| - (if n == |FilterOrder| && query.newOnly then 1 else 0)
    decreases n
  {
    if n > 0 {
      StageKinds(query, n - 1);
      var g := Stage(query, n - 1);
      var f := FilterOrder[n - 1];
      if Present(query, f) {
        var c := if f == ByNewOnly then OnlyNew else ConditionOf(f, |g.args| + 1);
        assert Stage(query, n).conds == g.conds + [c];
        assert KindOf(c) == f;
        assert Kinds(g.conds + [c]) == Kinds(g.conds) + [f];
      }
    }
  }

  lemma {:induction false} PresentAmongMembers(query: ListQuery, n: nat, f: Filter)
    requires n <= |FilterOrder|
    ensures f in PresentAmong(query, n) <==> f in FilterOrder[..n] && Present(query, f)
    decreases n
  {
    if n > 0 {
      PresentAmongMembers(query, n - 1, f);
      assert FilterOrder[..n] == FilterOrder[..n - 1] + [FilterOrder[n - 1]];
    }
  }

  /**
   * The conditions are exactly the present filters, each once, in filter
   * order; every present filter but new-only binds one argument.
   */
  lemma ConditionsComplete(query: ListQuery)
    ensures Kinds(Conditions(query)) == PresentAmong(query, |FilterOrder|)
    ensures forall f :: f in Kinds(Conditions(query)) <==> Present(query, f)
    ensures |FilterArgs(query)| + (if query.newOnly then 1 else 0) == |Conditions(query)|
  {
    StageKinds(query, |FilterOrder|);
    forall f
      ensures f in Kinds(Conditions(query)) <==> Present(query, f)
    {
      PresentAmongMembers(query, |FilterOrder|, f);
      assert FilterOrder[..|FilterOrder|] == FilterOrder;
      assert f == FilterOrder[0] || f == FilterOrder[1] || f == FilterOrder[2] ||
             f == FilterOrder[3] || f == FilterOrder[4] || f == FilterOrder[5];
    }
    PresentAmongMembers(query, |FilterOrder|, ByNewOnly);
  }

  /** The placeholders of the WHERE clause are the conditions' placeholders, in order. */
  lemma {:induction false} WhereSqlPlaceholders(conds: seq<Condition>, n: nat)
    requires forall i :: 0 <= i < |conds| && !conds[i].OnlyNew? ==> 1 <= conds[i].p <= n
    ensures forall i :: 0 <= i < |WhereSql(conds)| && WhereSql(conds)[i].P? ==> 1 <= WhereSql(conds)[i].p <= n
    decreases |conds|
  {
    if conds != [] {
      WhereSqlPlaceholders(conds[..|conds| - 1], n);
      var last := conds[|conds| - 1];
      assert forall i :: 0 <= i < |ConditionSql(last)| && ConditionSql(last)[i].P? ==> ConditionSql(last)[i].p == last.p;
    }
  }

  /** Every placeholder of the WHERE clause is bound to one of the filter arguments. */
  lemma WhereBound(query: ListQuery)
    ensures PlaceholdersBound(WhereSql(Conditions(query)), FilterArgs(query))
  {
    ConditionsBound(query);
    var conds := Conditions(query);
    forall i | 0 <= i < |conds| && !conds[i].OnlyNew?
      ensures 1 <= conds[i].p <= |FilterArgs(query)|
    {
      assert BoundTo(conds[i], FilterArgs(query), query);
    }
    WhereSqlPlaceholders(conds, |FilterArgs(query)|);
  }

  // ------------------------------------------------------------ builder

  /** The clause and arguments of the gathered conditions, and the number of the next placeholder. */
  ghost predicate Built(g: Gathered, baseQuery: seq<Token>, args: seq<SqlArg>, argIndex: nat)
  {
    && baseQuery == [W(FromWhereNotDeleted)] + WhereSql(g.conds)
    && args == g.args
    && argIndex == |args| + 1
  }

  /**
   * One filter's block of the builder: when the filter is present, its
   * condition reads placeholder `argIndex`, its value is appended and the
   * index moves on; new-only adds its condition alone.
   */
  method AddFilter(query: ListQuery, f: Filter, baseQuery: seq<Token>, args: seq<SqlArg>, argIndex: nat)
    returns (baseQuery': seq<Token>, args': seq<SqlArg>, argIndex': nat)
    ensures !Present(query, f) ==> baseQuery' == baseQuery && args' == args && argIndex' == argIndex
    ensures Present(query, f) && f == ByNewOnly ==>
              baseQuery' == baseQuery + [W(AndIsNew)] && args' == args && argIndex' == argIndex
    ensures Present(query, f) && f != ByNewOnly ==>
              && baseQuery' == baseQuery + ConditionSql(ConditionOf(f, argIndex))
              && args' == args + [ArgOf(query, f)]
              && argIndex' == argIndex + 1
  {
    baseQuery', args', argIndex' := baseQuery, args, argIndex;
    match f
    case ByKeyword =>
      if query.keyword != "" {
        baseQuery' := baseQuery + [W(AndNormalizedValueIs), P(argIndex)];
        args' := args + [TextArg(Lower(query.keyword))];
        argIndex' := argIndex + 1;
      }
    case ByText =>
      if query.q != "" {
        baseQuery' := baseQuery + [W(AndOpenDomainLike), P(argIndex), W(OrIssuerCNLike), P(argIndex),
                                   W(OrIssuerOrgLike), P(argIndex), W(Close)];
        args' := args + [TextArg("%" + query.q + "%")];
        argIndex' := argIndex + 1;
      }
    case ByIssuer =>
      if query.issuer != "" {
        baseQuery' := baseQuery + [W(AndOpenIssuerCNLike), P(argIndex), W(OrIssuerOrgLike), P(argIndex), W(Close)];
        args' := args + [TextArg("%" + query.issuer + "%")];
        argIndex' := argIndex + 1;
      }
    case ByDateFrom =>
      if query.dateFrom.Some? {
        baseQuery' := baseQuery + [W(AndFirstSeenFrom), P(argIndex)];
        args' := args + [TimeArg(query.dateFrom.value)];
        argIndex' := argIndex + 1;
      }
    case ByDateTo =>
      if query.dateTo.Some? {
        baseQuery' := baseQuery + [W(AndFirstSeenUntil), P(argIndex)];
        args' := args + [TimeArg(query.dateTo.value)];
        argIndex' := argIndex + 1;
      }
    case ByNewOnly =>
      if query.newOnly {
        baseQuery' := baseQuery + [W(AndIsNew)];
      }
  }

  /** A builder block keeps the builder in step with the gathered conditions and arguments. */
  lemma AddFilterBuilt(query: ListQuery, f: Filter, g: Gathered, b: seq<Token>, a: seq<SqlArg>, i: nat,
                       b': seq<Token>, a': seq<SqlArg>, i': nat)
    requires Built(g, b, a, i)
    requires !Present(query, f) ==> b' == b && a' == a && i' == i
    requires Present(query, f) && f == ByNewOnly ==> b' == b + [W(AndIsNew)] && a' == a && i' == i
    requires Present(query, f) && f != ByNewOnly ==>
               b' == b + ConditionSql(ConditionOf(f, i)) && a' == a + [ArgOf(query, f)] && i' == i + 1
    ensures Built(Step(query, f, g), b', a', i')
  {
    if Present(query, f) {
      var c := if f == ByNewOnly then OnlyNew else ConditionOf(f, i);
      var h := Step(query, f, g);
      assert h.conds == g.conds + [c];
      assert h.conds[..|h.conds| - 1] == g.conds;
      assert WhereSql(h.conds) == WhereSql(g.conds) + ConditionSql(c);
    }
  }

  /** The six filter steps written out. */
  lemma StageOfAll(query: ListQuery)
    ensures Stage(query, |FilterOrder|)
            == Step(query, ByNewOnly, Step(query, ByDateTo, Step(query, ByDateFrom,
                 Step(query, ByIssuer, Step(query, ByText, Step(query, ByKeyword, Gathered([], [])))))))
  {
    assert Stage(query, 1) == Step(query, ByKeyword, Gathered([], []));
    assert Stage(query, 2) == Step(query, ByText, Stage(query, 1));
    assert Stage(query, 3) == Step(query, ByIssuer, Stage(query, 2));
    assert Stage(query, 4) == Step(query, ByDateFrom, Stage(query, 3));
    assert Stage(query, 5) == Step(query, ByDateTo, Stage(query, 4));
    assert Stage(query, 6) == Step(query, ByNewOnly, Stage(query, 5));
  }

  /** The WHERE clause and its arguments, grown filter by filter in the order keyword, q, issuer, dates, new-only. */
  method BuildFilter(query: ListQuery) returns (baseQuery: seq<Token>, args: seq<SqlArg>, argIndex: nat)
    ensures baseQuery == [W(FromWhereNotDeleted)] + WhereSql(Conditions(query))
    ensures args == FilterArgs(query)
    ensures argIndex == |args| + 1
  {
    baseQuery := [W(FromWhereNotDeleted)];
    args := [];
    argIndex := 1;
    ghost var g := Gathered([], []);
    var b, a, i := AddFilter(query, ByKeyword, baseQuery, args, argIndex);
    AddFilterBuilt(query, ByKeyword, g, baseQuery, args, argIndex, b, a, i);
    baseQuery, args, argIndex, g := b, a, i, Step(query, ByKeyword, g);
    b, a, i := AddFilter(query, ByText, baseQuery, args, argIndex);
    AddFilterBuilt(query, ByText, g, baseQuery, args, argIndex, b, a, i);
    baseQuery, args, argIndex, g := b, a, i, Step(query, ByText, g);
    b, a, i := AddFilter(query, ByIssuer, baseQuery, args, argIndex);
    AddFilterBuilt(query, ByIssuer, g, baseQuery, args, argIndex, b, a, i);
    baseQuery, args, argIndex, g := b, a, i, Step(query, ByIssuer, g);
    b, a, i := AddFilter(query, ByDateFrom, baseQuery, args, argIndex);
    AddFilterBuilt(query, ByDateFrom, g, baseQuery, args, argIndex, b, a, i);
    baseQuery, args, argIndex, g := b, a, i, Step(query, ByDateFrom, g);
    b, a, i := AddFilter(query, ByDateTo, baseQuery, args, argIndex);
    AddFilterBuilt(query, ByDateTo, g, baseQuery, args, argIndex, b, a, i);
    baseQuery, args, argIndex, g := b, a, i, Step(query, ByDateTo, g);
    b, a, i := AddFilter(query, ByNewOnly, baseQuery, args, argIndex);
    AddFilterBuilt(query, ByNewOnly, g, baseQuery, args, argIndex, b, a, i);
    baseQuery, args, argIndex, g := b, a, i, Step(query, ByNewOnly, g);
    StageOfAll(query);
  }

  /** The statement text of the count query. */
  function CountSql(query: ListQuery): seq<Token> {
    [W(SelectCount), W(FromWhereNotDeleted)] + WhereSql(Conditions(query))
  }

  /** The statement text of the export stream: the WHERE clause and the ORDER BY, no limit. */
  function StreamSql(query: ListQuery): seq<Token> {
    [W(SelectColumns), W(FromWhereNotDeleted)] + WhereSql(Conditions(query)) + [W(OrderBy(query.sort))]
  }

  /**
   * The count and the page statements of List: the count shares the WHERE
   * clause and its arguments; the page adds the ORDER BY and binds LIMIT and
   * OFFSET to the next two placeholders, with offset (page - 1) * pageSize.
   */
  method ListStatements(query: ListQuery) returns (count: Statement, page: Statement)
    ensures count == Statement(CountSql(query), FilterArgs(query))
    ensures page.sql == StreamSql(query) + [W(Limit), P(|count.args| + 1), W(Offset), P(|count.args| + 2)]
    ensures page.args == count.args + [IntArg(query.pageSize), IntArg((query.page - 1) * query.pageSize)]
    ensures PlaceholdersBound(count.sql, count.args) && PlaceholdersBound(page.sql, page.args)
  {
    var baseQuery, args, argIndex := BuildFilter(query);
    count := Statement([W(SelectCount)] + baseQuery, args);
    var selectQuery := [W(SelectColumns)] + baseQuery;
    selectQuery := selectQuery + [W(OrderBy(query.sort))];
    var offset := (query.page - 1) * query.pageSize;
    selectQuery := selectQuery + [W(Limit), P(argIndex), W(Offset), P(argIndex + 1)];
    page := Statement(selectQuery, args + [IntArg(query.pageSize), IntArg(offset)]);
    WhereBound(query);
    assert PlaceholdersBound(WhereSql(Conditions(query)), args);
  }

  /** The statement StreamAll runs: the same WHERE clause, arguments and ORDER BY as List, no limit. */
  method StreamStatement(query: ListQuery) returns (all: Statement)
    ensures all == Statement(StreamSql(query), FilterArgs(query))
    ensures PlaceholdersBound(all.sql, all.args)
  {
    var baseQuery, args, _ := BuildFilter(query);
    var selectQuery := [W(SelectColumns)] + baseQuery;
    selectQuery := selectQuery + [W(OrderBy(query.sort))];
    all := Statement(selectQuery, args);
    WhereBound(query);
  }

  /** What List returns: the page's rows and the total, or the first error; the count runs first. */
  function ListOutcome(countResult: Result<int, string>, rowsResult: Result<seq<MatchRow>, string>)
    : (r: Result<(seq<MatchRow>, int), string>)
    ensures countResult.Failure? ==> r == Failure(countResult.error)
    ensures countResult.Success? && rowsResult.Failure? ==> r == Failure(rowsResult.error)
    ensures r.Success? <==> countResult.Success? && rowsResult.Success?
    ensures r.Success? ==> r.value == (rowsResult.value, countResult.value)
  {
    match countResult
    case Failure(e) => Failure(e)
    case Success(total) =>
      match rowsResult
      case Failure(e) => Failure(e)
      case Success(rows) => Success((rows, total))
  }

  /**
   * What the database yields for the stream statement: the error of the
   * query itself, the scanned rows in statement order (a scan may fail),
   * and the error the result set reports once it is exhausted.
   */
  datatype StreamOutcome = StreamOutcome(
    queryError: Option<string>,
    rows: seq<Result<MatchRow, string>>,
    endError: Option<string>)
}
