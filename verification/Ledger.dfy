/** The project ledger: rated usage debits it, adjustments credit it, and budgets bound what it may hold. */
module Ledger {
  import opened Basics
  import opened Text
  import opened Sums
  import Billing

  datatype Budget = Budget(tenant: string, currency: string, limit: int, generation: nat)
  datatype Rating = Rating(project: string, amount: int, currency: string)
  datatype Kind = Debit | Credit
  datatype Entry = Entry(
    tenant: string, project: string, fact: Option<string>, kind: Kind, amount: int, currency: string)

  datatype State = State(
    projects: map<string, string>,
    budgets: map<string, Budget>,
    facts: map<string, Billing.Fact>,
    ratings: map<string, Rating>,
    ledger: seq<Entry>)

  const INITIAL := State(map[], map[], map[], map[], [])

  datatype Outcome = Ok | Invalid | NotFound | Conflict | BudgetExceeded | OutOfRange | NotRated(error: Billing.Error)

  predicate IsInt64(n: int) {
    MIN_INT64 <= n <= MAX_INT64
  }

  function Signed(e: Entry): int {
    if e.kind == Debit then e.amount else -e.amount
  }

  /** SUM over the project's entries in one currency; exact, since it is summed as numeric. */
  function Used(ledger: seq<Entry>, project: string, currency: string): int {
    if ledger == [] then 0
    else
      var e := ledger[|ledger| - 1];
      Used(ledger[..|ledger| - 1], project, currency)
      + (if e.project == project && e.currency == currency then Signed(e) else 0)
  }

  function UpperChar(c: char): char {
    if 'a' <= c <= 'z' then c - 'a' + 'A' else c
  }

  function Upper(s: string): string {
    seq(|s|, i requires 0 <= i < |s| => UpperChar(s[i]))
  }

  predicate CurrencyCode(c: string) {
    |c| == 3 && forall i :: 0 <= i < 3 ==> 'A' <= c[i] <= 'Z'
  }

  // ----- transactions -----

  function DoCreateProject(s: State, project: string, tenant: string): (State, Outcome) {
    if project in s.projects then (s, Conflict) else (s.(projects := s.projects[project := tenant]), Ok)
  }

  function EnforceBudget(s: State, project: string, tenant: string, currency: string, amount: int): Outcome {
    if !(project in s.budgets && s.budgets[project].tenant == tenant) then Ok
    else
      var b := s.budgets[project];
      if b.currency != currency then Invalid
      else if !IsInt64(Used(s.ledger, project, currency)) then OutOfRange
      else if amount > 0 && Used(s.ledger, project, currency) > b.limit - amount then BudgetExceeded
      else Ok
  }

  function DoUsage(s: State, rates: map<string, Billing.Rate>, f: Billing.Fact): (State, Outcome)
    requires Billing.WellFormed(f)
  {
    match Billing.RateUsage(rates, f)
    case Err(e) => (s, NotRated(e))
    case Ok(rated) =>
      if f.project !in s.projects || s.projects[f.project] != f.tenant then (s, NotFound)
      else
        var refusal := EnforceBudget(s, f.project, f.tenant, rated.currency, rated.amount);
        if refusal != Ok then (s, refusal)
        else if f.id in s.facts || !CurrencyCode(rated.currency) then (s, Conflict)
        else
          (s.(facts := s.facts[f.id := f],
              ratings := s.ratings[f.id := Rating(f.project, rated.amount, rated.currency)],
              ledger := s.ledger + [Entry(f.tenant, f.project, Some(f.id), Debit, rated.amount, rated.currency)]), Ok)
  }

  function DoSetBudget(s: State, tenant: string, project: string, rawCurrency: string, limit: int): (State, Outcome) {
    var currency := Upper(Trim(rawCurrency));
    if !(0 <= limit <= MAX_INT64) || |Trim(rawCurrency)| != 3 then (s, Invalid)
    else if project !in s.projects || s.projects[project] != tenant then (s, NotFound)
    else
      var used := Used(s.ledger, project, currency);
      if !IsInt64(used) then (s, OutOfRange)
      else if used > limit then (s, BudgetExceeded)
      else if !CurrencyCode(currency) then (s, Invalid)
      else
        var b := if project in s.budgets
                 then s.budgets[project].(currency := currency, limit := limit,
                                          generation := s.budgets[project].generation + 1)
                 else Budget(tenant, currency, limit, 1);
        (s.(budgets := s.budgets[project := b]), Ok)
  }

  function DoCredit(
    s: State, tenant: string, project: string, amount: int, rawCurrency: string, reference: string, description: string)
    : (State, Outcome)
  {
    var currency := Upper(Trim(rawCurrency));
    if !(0 < amount <= MAX_INT64) || |Trim(rawCurrency)| != 3 || Blank(reference) || |reference| > 255
       || |Trim(description)| > 1024 then (s, Invalid)
    else if project !in s.projects || s.projects[project] != tenant then (s, NotFound)
    else if !CurrencyCode(currency) then (s, Invalid)
    else (s.(ledger := s.ledger + [Entry(tenant, project, None, Credit, amount, currency)]), Ok)
  }

  datatype Step =
    | CreateProject(id: string, owner: string)
    | Usage(rates: map<string, Billing.Rate>, usage: Billing.Fact)
    | SetBudget(tenant: string, project: string, currency: string, limit: int)
    | Adjust(atenant: string, aproject: string, amount: int, acurrency: string, reference: string, description: string)

  predicate ValidStep(step: Step) {
    step.Usage? ==> Billing.WellFormed(step.usage)
  }

  function Do(s: State, step: Step): (State, Outcome)
    requires ValidStep(step)
  {
    match step
    case CreateProject(id, owner) => DoCreateProject(s, id, owner)
    case Usage(rates, f) => DoUsage(s, rates, f)
    case SetBudget(tenant, project, currency, limit) => DoSetBudget(s, tenant, project, currency, limit)
    case Adjust(tenant, project, amount, currency, reference, description) =>
      DoCredit(s, tenant, project, amount, currency, reference, description)
  }

  predicate ValidSteps(steps: seq<Step>) {
    forall i :: 0 <= i < |steps| ==> ValidStep(steps[i])
  }

  function Run(s: State, steps: seq<Step>): State
    requires ValidSteps(steps)
    decreases |steps|
  {
    if steps == [] then s else Run(Do(s, steps[0]).0, steps[1..])
  }

  // ----- invariants -----

  ghost predicate BudgetOk(s: State, p: string)
    requires p in s.budgets
  {
    var b := s.budgets[p];
    && p in s.projects && s.projects[p] == b.tenant
    && 0 <= b.limit <= MAX_INT64
    && Used(s.ledger, p, b.currency) <= b.limit
  }

  /** The debit of a fact: same project, amount and currency as its rating. */
  predicate DebitOf(e: Entry, f: string, r: Rating) {
    e.kind == Debit && e.fact == Some(f) && e.project == r.project && e.amount == r.amount && e.currency == r.currency
  }

  ghost predicate EntryOk(s: State, e: Entry) {
    && 0 <= e.amount <= MAX_INT64
    && (e.kind == Debit <==> e.fact.Some?)
    && (e.kind == Debit ==> e.fact.value in s.ratings && DebitOf(e, e.fact.value, s.ratings[e.fact.value]))
  }

  predicate Debited(ledger: seq<Entry>, f: string, r: Rating) {
    exists i :: 0 <= i < |ledger| && DebitOf(ledger[i], f, r)
  }

  ghost predicate Inv(s: State) {
    && (forall p :: p in s.budgets ==> BudgetOk(s, p))
    && s.facts.Keys == s.ratings.Keys
    && (forall f :: f in s.ratings ==> Debited(s.ledger, f, s.ratings[f]))
    && (forall i :: 0 <= i < |s.ledger| ==> EntryOk(s, s.ledger[i]))
    && (forall i, j :: 0 <= i < j < |s.ledger| && s.ledger[i].kind == Debit ==> s.ledger[i].fact != s.ledger[j].fact)
  }

  lemma UsedAppend(ledger: seq<Entry>, e: Entry, project: string, currency: string)
    ensures Used(ledger + [e], project, currency)
         == Used(ledger, project, currency) + (if e.project == project && e.currency == currency then Signed(e) else 0)
  {
    assert (ledger + [e])[..|ledger|] == ledger;
  }

  /** The guard computes without overflow and refuses exactly what would pass the limit. */
  lemma GuardExact(limit: int, used: int, amount: int)
    requires 0 <= limit <= MAX_INT64 && IsInt64(used) && 0 < amount <= MAX_INT64
    ensures IsInt64(limit - amount)
    ensures used > limit - amount <==> used + amount > limit
  {
  }

  lemma DebitedAppend(ledger: seq<Entry>, e: Entry, f: string, r: Rating)
    ensures Debited(ledger, f, r) ==> Debited(ledger + [e], f, r)
    ensures DebitOf(e, f, r) ==> Debited(ledger + [e], f, r)
  {
    if Debited(ledger, f, r) {
      var i :| 0 <= i < |ledger| && DebitOf(ledger[i], f, r);
      assert (ledger + [e])[i] == ledger[i];
    }
    if DebitOf(e, f, r) { assert (ledger + [e])[|ledger|] == e; }
  }

  lemma UsageBudget(s: State, rates: map<string, Billing.Rate>, f: Billing.Fact, p: string)
    requires Inv(s) && Billing.WellFormed(f) && DoUsage(s, rates, f).1 == Ok && p in s.budgets
    ensures BudgetOk(DoUsage(s, rates, f).0, p)
  {
    Billing.RatedExactly(rates, f);
    var rated := Billing.RateUsage(rates, f).value;
    UsedAppend(s.ledger, Entry(f.tenant, f.project, Some(f.id), Debit, rated.amount, rated.currency), p,
      s.budgets[p].currency);
    assert BudgetOk(s, p);
    hide Billing.RateUsage, Inv, Used;
  }

  lemma UsageInv(s: State, rates: map<string, Billing.Rate>, f: Billing.Fact)
    requires Inv(s) && Billing.WellFormed(f)
    ensures Inv(DoUsage(s, rates, f).0)
  {
    var (s', o) := DoUsage(s, rates, f);
    if o == Ok {
      forall p | p in s.budgets ensures BudgetOk(s', p) { UsageBudget(s, rates, f, p); }
      Billing.RatedExactly(rates, f);
      var e := s'.ledger[|s.ledger|];
      assert s'.ledger == s.ledger + [e];
      forall g | g in s'.ratings ensures Debited(s'.ledger, g, s'.ratings[g]) {
        DebitedAppend(s.ledger, e, g, s'.ratings[g]);
        hide Debited, BudgetOk, Billing.RateUsage, EntryOk;
      }
      UsageEntries(s, rates, f);
      hide BudgetOk, Debited, Billing.RateUsage, EnforceBudget, EntryOk;
    }
  }

  lemma UsageEntries(s: State, rates: map<string, Billing.Rate>, f: Billing.Fact)
    requires Inv(s) && Billing.WellFormed(f) && DoUsage(s, rates, f).1 == Ok
    ensures var s' := DoUsage(s, rates, f).0;
      && (forall i :: 0 <= i < |s'.ledger| ==> EntryOk(s', s'.ledger[i]))
      && (forall i, j :: 0 <= i < j < |s'.ledger| && s'.ledger[i].kind == Debit ==>
            s'.ledger[i].fact != s'.ledger[j].fact)
  {
    Billing.RatedExactly(rates, f);
    hide Billing.RateUsage, EnforceBudget, BudgetOk, Debited;
    assert forall i :: 0 <= i < |s.ledger| ==> EntryOk(s, s.ledger[i]);
  }

  lemma CreditInv(
    s: State, tenant: string, project: string, amount: int, currency: string, reference: string, description: string)
    requires Inv(s)
    ensures Inv(DoCredit(s, tenant, project, amount, currency, reference, description).0)
  {
    var (s', o) := DoCredit(s, tenant, project, amount, currency, reference, description);
    if o == Ok {
      var e := s'.ledger[|s.ledger|];
      assert s'.ledger == s.ledger + [e];
      forall p | p in s.budgets ensures BudgetOk(s', p) {
        assert BudgetOk(s, p);
        UsedAppend(s.ledger, e, p, s.budgets[p].currency);
      }
      forall g | g in s'.ratings ensures Debited(s'.ledger, g, s'.ratings[g]) {
        DebitedAppend(s.ledger, e, g, s'.ratings[g]);
      }
      assert forall i :: 0 <= i < |s.ledger| ==> EntryOk(s, s.ledger[i]);
      hide BudgetOk, Debited;
    }
  }

  lemma StepInv(s: State, step: Step)
    requires Inv(s) && ValidStep(step)
    ensures Inv(Do(s, step).0)
  {
    match step
    case Usage(rates, f) => UsageInv(s, rates, f);
    case Adjust(tenant, project, amount, currency, reference, description) =>
      CreditInv(s, tenant, project, amount, currency, reference, description);
    case SetBudget(tenant, project, currency, limit) =>
      hide Debited, Used, DebitOf;
    case CreateProject(_, _) =>
      hide Debited, Used, DebitOf;
  }

  lemma {:induction false} RunInv(s: State, steps: seq<Step>)
    requires Inv(s) && ValidSteps(steps)
    ensures Inv(Run(s, steps))
    decreases |steps|
  {
    if steps != [] {
      StepInv(s, steps[0]);
      RunInv(Do(s, steps[0]).0, steps[1..]);
    }
  }

  /** In every reachable state debits minus credits in a budget's currency stay within its limit. */
  lemma BudgetsHold(steps: seq<Step>, project: string)
    requires ValidSteps(steps) && project in Run(INITIAL, steps).budgets
    ensures var s := Run(INITIAL, steps); var b := s.budgets[project];
      Used(s.ledger, project, b.currency) <= b.limit <= MAX_INT64
  {
    RunInv(INITIAL, steps);
    assert BudgetOk(Run(INITIAL, steps), project);
  }

  /** Every usage fact has one rating and one debit, of the same amount, currency and project. */
  lemma OneDebitPerFact(steps: seq<Step>, f: string)
    requires ValidSteps(steps) && f in Run(INITIAL, steps).facts
    ensures var s := Run(INITIAL, steps);
      && f in s.ratings
      && exists i :: 0 <= i < |s.ledger| && DebitOf(s.ledger[i], f, s.ratings[f])
           && forall j :: 0 <= j < |s.ledger| && s.ledger[j].fact == Some(f) ==> j == i
  {
    RunInv(INITIAL, steps);
    var s := Run(INITIAL, steps);
    assert Debited(s.ledger, f, s.ratings[f]);
    var i :| 0 <= i < |s.ledger| && DebitOf(s.ledger[i], f, s.ratings[f]);
    forall j | 0 <= j < |s.ledger| && s.ledger[j].fact == Some(f) ensures j == i {
      assert EntryOk(s, s.ledger[j]);
    }
  }

  // ----- what budgets and credits record -----

  /** A budget is set exactly for a known project in a currency whose usage can be read and is within it. */
  lemma BudgetSet(s: State, tenant: string, project: string, rawCurrency: string, limit: int)
    ensures var (s', o) := DoSetBudget(s, tenant, project, rawCurrency, limit);
      var currency := Upper(Trim(rawCurrency));
      && (o == Ok <==>
            && 0 <= limit <= MAX_INT64 && CurrencyCode(currency)
            && project in s.projects && s.projects[project] == tenant
            && MIN_INT64 <= Used(s.ledger, project, currency) <= limit)
      && (o == Ok ==>
            && project in s'.budgets && s'.budgets[project].limit == limit && s'.budgets[project].currency == currency
            && s'.budgets - {project} == s.budgets - {project}
            && (project !in s.budgets ==> s'.budgets[project].tenant == tenant && s'.budgets[project].generation == 1)
            && (project in s.budgets ==>
                  s'.budgets[project].tenant == s.budgets[project].tenant
                  && s'.budgets[project].generation == s.budgets[project].generation + 1)
            && s' == s.(budgets := s'.budgets))
      && (o != Ok ==> s' == s)
      && (o == NotFound ==> project !in s.projects || s.projects[project] != tenant)
      && (o == BudgetExceeded ==> limit < Used(s.ledger, project, currency) <= MAX_INT64)
      && (o == OutOfRange ==> !IsInt64(Used(s.ledger, project, currency)))
      && o in {Ok, Invalid, NotFound, BudgetExceeded, OutOfRange}
  {
    hide Used, Trim, UpperChar;
  }

  /** A credit is taken exactly for a known project, and lowers its usage in that currency by the amount. */
  lemma CreditRecorded(
    s: State, tenant: string, project: string, amount: int, rawCurrency: string, reference: string, description: string)
    ensures var (s', o) := DoCredit(s, tenant, project, amount, rawCurrency, reference, description);
      var currency := Upper(Trim(rawCurrency));
      && (o == Ok <==>
            && 0 < amount <= MAX_INT64 && CurrencyCode(currency)
            && Trim(reference) != "" && |reference| <= 255 && |Trim(description)| <= 1024
            && project in s.projects && s.projects[project] == tenant)
      && (o == Ok ==>
            && s' == s.(ledger := s'.ledger)
            && |s'.ledger| == |s.ledger| + 1 && s'.ledger[..|s.ledger|] == s.ledger
            && s'.ledger[|s.ledger|].kind == Credit && s'.ledger[|s.ledger|].tenant == tenant
            && forall p, c :: Used(s'.ledger, p, c) ==
                 Used(s.ledger, p, c) - if p == project && c == currency then amount else 0)
      && (o != Ok ==> s' == s)
      && (o == NotFound ==> project !in s.projects || s.projects[project] != tenant) && o in {Ok, Invalid, NotFound}
  {
    var (s', o) := DoCredit(s, tenant, project, amount, rawCurrency, reference, description);
    hide Trim, UpperChar, Used;
    if o == Ok {
      var e := s'.ledger[|s.ledger|];
      assert s'.ledger == s.ledger + [e];
      forall p, c ensures Used(s'.ledger, p, c) ==
        Used(s.ledger, p, c) - if p == project && c == Upper(Trim(rawCurrency)) then amount else 0
      {
        UsedAppend(s.ledger, e, p, c);
      }
    }
  }

  predicate Capital(c: char) {
    64 < c as int < 91
  }

  /** Codes are three capital letters. */
  lemma CodesAreCapitals(code: string)
    ensures CurrencyCode(code) <==> |code| == 3 && Capital(code[0]) && Capital(code[1]) && Capital(code[2])
  {
  }

  /** Upper case is the same letters, and the identity on codes. */
  lemma UpperCases(c: string)
    ensures |Upper(c)| == |c|
    ensures CurrencyCode(c) ==> Upper(c) == c
    ensures forall i :: 0 <= i < |c| && 'a' <= c[i] <= 'z' ==>
      'A' <= Upper(c)[i] <= 'Z' && Upper(c)[i] - 'A' == c[i] - 'a'
  {
  }

  // ----- what a usage records -----

  /** What each refusal of a usage says. A budget is exceeded exactly if the amount does not fit under it. */
  lemma UsageRefused(s: State, rates: map<string, Billing.Rate>, f: Billing.Fact)
    requires Billing.WellFormed(f)
    ensures var (s', o) := DoUsage(s, rates, f); var r := Billing.RateUsage(rates, f);
      var known := f.project in s.projects && s.projects[f.project] == f.tenant;
      && (o != Ok ==> s' == s)
      && (o.NotRated? <==> r.Err?) && (o.NotRated? ==> o.error == r.error)
      && (o == NotFound <==> r.Ok? && !known)
      && (o == BudgetExceeded || o == Invalid || o == OutOfRange ==>
            && r.Ok? && known && f.project in s.budgets && s.budgets[f.project].tenant == f.tenant)
      && (o == Invalid ==> s.budgets[f.project].currency != r.value.currency)
      && (o == OutOfRange ==> !IsInt64(Used(s.ledger, f.project, r.value.currency)))
      && (o == BudgetExceeded ==>
            && s.budgets[f.project].currency == r.value.currency
            && Used(s.ledger, f.project, r.value.currency) + r.value.amount > s.budgets[f.project].limit)
      && (o == Conflict ==> f.id in s.facts || !CurrencyCode(r.value.currency))
  {
    hide Billing.RateUsage, Used, CurrencyCode;
  }

  /** An accepted usage records its rated amount, debits exactly that, and touches nothing else. */
  lemma UsageRecorded(s: State, rates: map<string, Billing.Rate>, f: Billing.Fact)
    requires Billing.WellFormed(f) && DoUsage(s, rates, f).1 == Ok
    ensures Billing.RateUsage(rates, f).Ok?
    ensures var s', r := DoUsage(s, rates, f).0, Billing.RateUsage(rates, f).value;
      && s'.projects == s.projects && s'.budgets == s.budgets
      && f.id !in s.facts && s'.facts == s.facts[f.id := f]
      && f.id in s'.ratings && s'.ratings - {f.id} == s.ratings - {f.id}
      && s'.ratings[f.id].project == f.project
      && s'.ratings[f.id].amount == r.amount && s'.ratings[f.id].currency == r.currency
      && |s'.ledger| == |s.ledger| + 1 && s'.ledger[..|s.ledger|] == s.ledger
      && DebitOf(s'.ledger[|s.ledger|], f.id, s'.ratings[f.id]) && s'.ledger[|s.ledger|].tenant == f.tenant
      && forall p, c :: Used(s'.ledger, p, c) ==
           Used(s.ledger, p, c) + if p == f.project && c == r.currency then r.amount else 0
  {
    var s', r := DoUsage(s, rates, f).0, Billing.RateUsage(rates, f).value;
    var e := s'.ledger[|s.ledger|];
    assert s'.ledger == s.ledger + [e];
    forall p, c ensures Used(s'.ledger, p, c) ==
      Used(s.ledger, p, c) + if p == f.project && c == r.currency then r.amount else 0
    {
      UsedAppend(s.ledger, e, p, c);
    }
    hide Billing.RateUsage, Used, EnforceBudget, CurrencyCode;
  }

  /** The entry debits what the usage of that step costs at that step's rates. */
  ghost predicate RatedIn(e: Entry, facts: map<string, Billing.Fact>, step: Step) {
    && step.Usage? && e.fact.Some? && e.fact.value in facts && facts[e.fact.value] == step.usage
    && Billing.WellFormed(step.usage)
    && var r := Billing.RateUsage(step.rates, step.usage);
       r.Ok? && e.amount == r.value.amount && e.currency == r.value.currency && e.project == step.usage.project
  }

  ghost predicate DebitsRated(s: State, past: seq<Step>) {
    forall i :: 0 <= i < |s.ledger| && s.ledger[i].kind == Debit ==>
      exists step :: step in past && RatedIn(s.ledger[i], s.facts, step)
  }

  lemma StepRated(s: State, past: seq<Step>, step: Step)
    requires ValidStep(step) && DebitsRated(s, past)
    ensures DebitsRated(Do(s, step).0, past + [step])
  {
    var s' := Do(s, step).0;
    StepRecords(s, step);
    hide Do, Billing.RateUsage, Billing.WellFormed;
    forall i | 0 <= i < |s'.ledger| && s'.ledger[i].kind == Debit
      ensures exists st :: st in past + [step] && RatedIn(s'.ledger[i], s'.facts, st)
    {
      if i < |s.ledger| {
        assert s'.ledger[i] == s.ledger[i];
        var st :| st in past && RatedIn(s.ledger[i], s.facts, st);
        assert st in past + [step] && RatedIn(s'.ledger[i], s'.facts, st);
      } else {
        assert step in past + [step] && RatedIn(s'.ledger[i], s'.facts, step);
      }
    }
  }

  /** Facts and entries stay, and a new debit is rated in its step. */
  lemma StepRecords(s: State, step: Step)
    requires ValidStep(step)
    ensures var s' := Do(s, step).0;
      && (forall f :: f in s.facts ==> f in s'.facts && s'.facts[f] == s.facts[f])
      && |s.ledger| <= |s'.ledger| <= |s.ledger| + 1 && s'.ledger[..|s.ledger|] == s.ledger
      && (forall i :: |s.ledger| <= i < |s'.ledger| && s'.ledger[i].kind == Debit ==>
        RatedIn(s'.ledger[i], s'.facts, step))
  {
    if step.Usage? && Do(s, step).1 == Ok { UsageRecorded(s, step.rates, step.usage); }
    hide Billing.RateUsage, EnforceBudget, Used, Billing.WellFormed, Upper, CurrencyCode;
  }

  lemma {:induction false} RunRated(s: State, past: seq<Step>, steps: seq<Step>)
    requires ValidSteps(steps) && DebitsRated(s, past)
    ensures DebitsRated(Run(s, steps), past + steps)
    decreases |steps|
  {
    if steps == [] {
      assert past + steps == past;
    } else {
      StepRated(s, past, steps[0]);
      hide Do, DebitsRated;
      RunRated(Do(s, steps[0]).0, past + [steps[0]], steps[1..]);
      assert past + [steps[0]] + steps[1..] == past + steps;
    }
  }

  /** The least whole amount not below quantity x seconds x price of the fact, at that price. */
  predicate CostsAt(amount: int, f: Billing.Fact, price: int) {
    && f.quantity.Number? && f.start.Instant? && f.end.Instant?
    && var ns := if f.end.ns - f.start.ns > MAX_INT64 then MAX_INT64 else f.end.ns - f.start.ns;
       (amount - 1) * (f.quantity.den * 1_000_000_000) < f.quantity.num * ns * price
       <= amount * (f.quantity.den * 1_000_000_000)
  }

  /**
   In every reachable state every debit is the cost of its fact, rounded up, at a price some usage of the run
   found for its resource class.
   */
  lemma DebitsAreCosts(steps: seq<Step>, i: nat)
    requires ValidSteps(steps) && i < |Run(INITIAL, steps).ledger| && Run(INITIAL, steps).ledger[i].kind == Debit
    ensures var s := Run(INITIAL, steps); var e := s.ledger[i];
      && e.fact.Some? && e.fact.value in s.facts && s.facts[e.fact.value].project == e.project
      && exists step :: step in steps && step.Usage? && step.usage == s.facts[e.fact.value]
           && Trim(step.usage.resourceClass) in step.rates
           && var rate := step.rates[Trim(step.usage.resourceClass)];
              CostsAt(e.amount, step.usage, rate.minorPerUnit) && e.currency == rate.currency
  {
    RunRated(INITIAL, [], steps);
    assert [] + steps == steps;
    var s := Run(INITIAL, steps);
    var step :| step in steps && RatedIn(s.ledger[i], s.facts, step);
    Billing.RatedExactly(step.rates, step.usage);
    RatedCosts(step.rates, step.usage);
    hide Run, Billing.RateUsage;
  }

  lemma RatedCosts(rates: map<string, Billing.Rate>, f: Billing.Fact)
    requires Billing.WellFormed(f) && Billing.RateUsage(rates, f).Ok?
    ensures Trim(f.resourceClass) in rates
    ensures CostsAt(Billing.RateUsage(rates, f).value.amount, f, rates[Trim(f.resourceClass)].minorPerUnit)
  {
    Billing.RatedExactly(rates, f);
    hide Billing.RateUsage;
  }

  // ----- what the sum means -----

  ghost function Weight(project: string, currency: string): Rating -> int {
    (r: Rating) => if r.project == project && r.currency == currency then r.amount else 0
  }

  function Credits(ledger: seq<Entry>, project: string, currency: string): int {
    if ledger == [] then 0
    else
      var e := ledger[|ledger| - 1];
      Credits(ledger[..|ledger| - 1], project, currency)
      + (if e.kind == Credit && e.project == project && e.currency == currency then e.amount else 0)
  }

  ghost predicate Balanced(s: State, project: string, currency: string) {
    Used(s.ledger, project, currency) ==
      Sum(s.ratings, Weight(project, currency)) - Credits(s.ledger, project, currency)
  }

  lemma CreditsAppend(ledger: seq<Entry>, e: Entry, project: string, currency: string)
    ensures Credits(ledger + [e], project, currency) == Credits(ledger, project, currency)
      + (if e.kind == Credit && e.project == project && e.currency == currency then e.amount else 0)
  {
    assert (ledger + [e])[..|ledger|] == ledger;
  }

  lemma EntryBalanced(s: State, s': State, e: Entry, project: string, currency: string)
    requires Balanced(s, project, currency) && s'.ledger == s.ledger + [e]
    requires Sum(s'.ratings, Weight(project, currency)) - Sum(s.ratings, Weight(project, currency)) ==
      if e.kind == Debit && e.project == project && e.currency == currency then e.amount else 0
    ensures Balanced(s', project, currency)
  {
    UsedAppend(s.ledger, e, project, currency);
    CreditsAppend(s.ledger, e, project, currency);
    hide Used, Credits, Sum;
  }

  lemma UsageBalanced(s: State, rates: map<string, Billing.Rate>, f: Billing.Fact, project: string, currency: string)
    requires Billing.WellFormed(f) && s.facts.Keys == s.ratings.Keys && Balanced(s, project, currency)
    ensures Balanced(DoUsage(s, rates, f).0, project, currency)
  {
    hide Billing.RateUsage, EnforceBudget, Balanced, Sum, CurrencyCode;
    var (s', o) := DoUsage(s, rates, f);
    if o == Ok {
      SumInsert(s.ratings, Weight(project, currency), f.id, s'.ratings[f.id]);
      EntryBalanced(s, s', s'.ledger[|s.ledger|], project, currency);
    }
  }

  lemma StepBalanced(s: State, step: Step, project: string, currency: string)
    requires Inv(s) && ValidStep(step) && Balanced(s, project, currency)
    ensures Balanced(Do(s, step).0, project, currency)
  {
    match step
    case Usage(rates, f) => UsageBalanced(s, rates, f, project, currency);
    case Adjust(_, _, _, _, _, _) =>
      hide Inv, Balanced, Used, Credits;
      var (s', o) := Do(s, step);
      if o == Ok { EntryBalanced(s, s', s'.ledger[|s.ledger|], project, currency); }
    case _ =>
      hide Inv, Used, Credits, Sum;
  }

  /** The ledger agrees with the ratings: usage is the sum of all ratings less all credits. */
  lemma {:induction false} LedgerIsRatingsLessCredits(s: State, steps: seq<Step>, project: string, currency: string)
    requires Inv(s) && ValidSteps(steps) && Balanced(s, project, currency)
    ensures Balanced(Run(s, steps), project, currency)
    decreases |steps|
  {
    if steps != [] {
      StepInv(s, steps[0]);
      StepBalanced(s, steps[0], project, currency);
      LedgerIsRatingsLessCredits(Do(s, steps[0]).0, steps[1..], project, currency);
    }
  }

  lemma ReachableBalanced(steps: seq<Step>, project: string, currency: string)
    requires ValidSteps(steps)
    ensures var s := Run(INITIAL, steps);
      Used(s.ledger, project, currency) ==
        Sum(s.ratings, Weight(project, currency)) - Credits(s.ledger, project, currency)
  {
    LedgerIsRatingsLessCredits(INITIAL, steps, project, currency);
  }

  // ----- reading a budget -----

  function Wrap64(n: int): int {
    (n - MIN_INT64) % 0x1_0000_0000_0000_0000 + MIN_INT64
  }

  datatype BudgetView = NoBudget | Unreadable | BudgetView(limit: int, used: int, available: int)

  /** The sum must fit the 64-bit integer it is read into; the availability is a 64-bit subtraction. */
  function DoGetBudget(s: State, project: string): BudgetView {
    if project !in s.budgets then NoBudget
    else
      var b := s.budgets[project];
      var used := Used(s.ledger, project, b.currency);
      if !IsInt64(used) then Unreadable else BudgetView(b.limit, used, Wrap64(b.limit - used))
  }

  /** Exactly an unknown budget is reported as none, and exactly a sum beyond 64 bits as unreadable. */
  lemma BudgetViews(s: State, project: string)
    ensures var view := DoGetBudget(s, project);
      && (view == NoBudget <==> project !in s.budgets)
      && (view == Unreadable <==>
            && project in s.budgets
            && var used := Used(s.ledger, project, s.budgets[project].currency);
               used < -0x8000_0000_0000_0000 || used > 0x7FFF_FFFF_FFFF_FFFF)
      && (view.BudgetView? ==>
            view.limit == s.budgets[project].limit
            && view.used == Used(s.ledger, project, s.budgets[project].currency))
  {
    hide Used;
  }

  /** What the credits of a budget's project exceed its ratings by, in the budget's currency. */
  ghost function NetCredit(s: State, project: string): int
    requires project in s.budgets
  {
    var currency := s.budgets[project].currency;
    Credits(s.ledger, project, currency) - Sum(s.ratings, Weight(project, currency))
  }

  /**
   In every reachable state the reported availability is the limit less the net usage exactly if the net
   credit is at most what 64 bits leave above the limit; past that it is negative, and past 2^63 the budget
   cannot be read at all.
   */
  lemma AvailableExactIff(steps: seq<Step>, project: string)
    requires ValidSteps(steps) && project in Run(INITIAL, steps).budgets
    ensures var s := Run(INITIAL, steps);
      var b, credit, view := s.budgets[project], NetCredit(s, project), DoGetBudget(s, project);
      && -credit <= b.limit
      && (view == Unreadable <==> credit > -MIN_INT64)
      && (view.BudgetView? ==>
            && view.limit == b.limit && view.used == -credit
            && (view.available == b.limit + credit <==> credit <= MAX_INT64 - b.limit)
            && (view.available < 0 <==> credit > MAX_INT64 - b.limit))
  {
    var s := Run(INITIAL, steps);
    BudgetsHold(steps, project);
    ReachableBalanced(steps, project, s.budgets[project].currency);
    RunInv(INITIAL, steps);
    assert BudgetOk(s, project);
    hide Run, Used, Credits, Sum, Inv;
  }

  /** A budget, if there is one, has the currency, can be read, and covers the amount less the net credit. */
  ghost predicate BudgetAllows(s: State, project: string, currency: string, amount: int) {
    project in s.budgets ==>
      && s.budgets[project].currency == currency
      && NetCredit(s, project) <= -MIN_INT64
      && amount - NetCredit(s, project) <= s.budgets[project].limit
  }

  /**
   In every reachable state a usage is accepted exactly if it can be rated, its project is known, its fact is
   new, its currency is a code and the project's budget allows it. Credits widen a budget up to a net credit
   of 2^63; a larger one blocks all usage.
   */
  lemma UsageAcceptedIff(steps: seq<Step>, rates: map<string, Billing.Rate>, f: Billing.Fact)
    requires ValidSteps(steps) && Billing.WellFormed(f)
    ensures var s, r := Run(INITIAL, steps), Billing.RateUsage(rates, f);
      DoUsage(s, rates, f).1 == Ok <==>
        && r.Ok?
        && f.project in s.projects && s.projects[f.project] == f.tenant
        && f.id !in s.facts && CurrencyCode(r.value.currency)
        && BudgetAllows(s, f.project, r.value.currency, r.value.amount)
  {
    var s, r := Run(INITIAL, steps), Billing.RateUsage(rates, f);
    RunInv(INITIAL, steps);
    if r.Ok? { Billing.RatedExactly(rates, f); }
    if r.Ok? && f.project in s.budgets {
      assert BudgetOk(s, f.project);
      ReachableBalanced(steps, f.project, s.budgets[f.project].currency);
      var used := -NetCredit(s, f.project);
      if r.value.amount > 0 && IsInt64(used) { GuardExact(s.budgets[f.project].limit, used, r.value.amount); }
    }
    hide Run, Used, Credits, Sum, Inv, Billing.RateUsage, CurrencyCode;
  }

  function Refunds(credits: seq<int>): (steps: seq<Step>)
    ensures ValidSteps(steps)
  {
    seq(|credits|, i requires 0 <= i < |credits| => Adjust("t", "p", credits[i], "USD", "refund", ""))
  }

  /** A project, its budget, and credits alone. */
  function BudgetThenRefunds(limit: int, credits: seq<int>): (steps: seq<Step>)
    ensures ValidSteps(steps)
  {
    [CreateProject("p", "t"), SetBudget("t", "p", "USD", limit)] + Refunds(credits)
  }

  function Plus(credits: seq<int>): int {
    if credits == [] then 0 else credits[0] + Plus(credits[1..])
  }

  lemma PlainCurrency()
    ensures Trim("USD") == "USD" && Upper("USD") == "USD" && CurrencyCode("USD") && !Blank("refund") && Trim("") == ""
  {
    NothingToTrim("USD");
    NothingToTrim("refund");
    assert Upper("USD") == "USD";
  }

  lemma {:induction false} RefundsAddUp(s: State, credits: seq<int>)
    requires s.projects == map["p" := "t"] && forall i :: 0 <= i < |credits| ==> 0 < credits[i] <= MAX_INT64
    ensures Run(s, Refunds(credits)).budgets == s.budgets
    ensures Used(Run(s, Refunds(credits)).ledger, "p", "USD") == Used(s.ledger, "p", "USD") - Plus(credits)
    decreases |credits|
  {
    if credits != [] {
      PlainCurrency();
      hide Used, Upper, CurrencyCode, Trim, Blank;
      var step := Refunds(credits)[0];
      var s1 := Do(s, step).0;
      UsedAppend(s.ledger, Entry("t", "p", None, Credit, credits[0], "USD"), "p", "USD");
      RefundsAddUp(s1, credits[1..]);
      assert Refunds(credits[1..]) == Refunds(credits)[1..];
    }
  }

  /** After a budget and credits alone, for every limit and all credits. */
  lemma RefundedBudget(limit: int, credits: seq<int>)
    requires 0 <= limit <= MAX_INT64 && forall i :: 0 <= i < |credits| ==> 0 < credits[i] <= MAX_INT64
    ensures var s := Run(INITIAL, BudgetThenRefunds(limit, credits));
      && "p" in s.budgets && s.budgets["p"].limit == limit && s.budgets["p"].currency == "USD"
      && Used(s.ledger, "p", "USD") == -Plus(credits)
  {
    var steps := BudgetThenRefunds(limit, credits);
    BudgetOfProject(limit);
    var s1 := Do(INITIAL, steps[0]).0;
    var s2 := Do(s1, steps[1]).0;
    RefundsAddUp(s2, credits);
    hide Used, Do, Plus;
    assert steps[1..][1..] == Refunds(credits);
    assert Run(INITIAL, steps) == Run(s1, steps[1..]) == Run(s2, steps[1..][1..]);
  }

  lemma BudgetOfProject(limit: int)
    requires 0 <= limit <= MAX_INT64
    ensures var s1 := Do(INITIAL, CreateProject("p", "t")).0;
      Do(s1, SetBudget("t", "p", "USD", limit)).0
      == State(map["p" := "t"], map["p" := Budget("t", "USD", limit, 1)], map[], map[], [])
  {
    PlainCurrency();
    hide Upper, CurrencyCode, Trim, Blank;
  }

  /** The largest budget and a credit of one minor unit: the project is told it has less than nothing. */
  lemma AvailabilityWraps()
    ensures DoGetBudget(Run(INITIAL, BudgetThenRefunds(MAX_INT64, [1])), "p") == BudgetView(MAX_INT64, -1, MIN_INT64)
  {
    RefundedBudget(MAX_INT64, [1]);
    assert Plus([1]) == 1;
    hide Run, Used;
  }

  /** Two of the largest credits: the budget cannot be read, and no usage of the project is accepted any more. */
  lemma CreditsBlockUsage(rates: map<string, Billing.Rate>, f: Billing.Fact)
    requires Billing.WellFormed(f) && f.project == "p"
    ensures var s := Run(INITIAL, BudgetThenRefunds(0, [MAX_INT64, MAX_INT64]));
      DoGetBudget(s, "p") == Unreadable && DoUsage(s, rates, f).1 != Ok
  {
    var credits := [MAX_INT64, MAX_INT64];
    RefundedBudget(0, credits);
    assert Plus(credits) == MAX_INT64 + Plus(credits[1..]) && Plus(credits[1..]) == MAX_INT64;
    var s := Run(INITIAL, BudgetThenRefunds(0, credits));
    RunInv(INITIAL, BudgetThenRefunds(0, credits));
    assert BudgetOk(s, "p");
    hide Run, Used, Inv, Billing.RateUsage;
  }

  // ----- the transactions, in place -----

  class Repository {
    var projects: map<string, string>
    var budgets: map<string, Budget>
    var facts: map<string, Billing.Fact>
    var ratings: map<string, Rating>
    var ledger: seq<Entry>

    ghost function View(): State
      reads this
    {
      State(projects, budgets, facts, ratings, ledger)
    }

    constructor ()
      ensures View() == INITIAL
    {
      projects, budgets, facts, ratings, ledger := map[], map[], map[], map[], [];
    }

    /** SELECT COALESCE(SUM(...), 0) */
    method SumLedger(project: string, currency: string) returns (used: int)
      ensures used == Used(ledger, project, currency)
    {
      used := 0;
      for i := 0 to |ledger|
        invariant used == Used(ledger[..i], project, currency)
      {
        assert ledger[..i + 1][..i] == ledger[..i];
        var e := ledger[i];
        if e.project == project && e.currency == currency {
          used := used + if e.kind == Debit then e.amount else -e.amount;
        }
      }
      assert ledger[..|ledger|] == ledger;
    }

    method EnforceProjectBudget(project: string, tenant: string, currency: string, amount: int) returns (o: Outcome)
      ensures o == EnforceBudget(View(), project, tenant, currency, amount)
    {
      if project !in budgets || budgets[project].tenant != tenant { return Ok; }
      var b := budgets[project];
      if b.currency != currency { return Invalid; }
      var used := SumLedger(project, currency);
      if !IsInt64(used) { return OutOfRange; }
      if amount > 0 && used > b.limit - amount { return BudgetExceeded; }
      return Ok;
    }

    method CreateUsageFact(rates: map<string, Billing.Rate>, f: Billing.Fact) returns (o: Outcome)
      requires Billing.WellFormed(f)
      modifies this
      ensures (View(), o) == DoUsage(old(View()), rates, f)
      ensures o == Ok ==> Billing.RateUsage(rates, f).Ok? && var rated := Billing.RateUsage(rates, f).value;
        && f.id in ratings && ratings[f.id].amount == rated.amount && ratings[f.id].currency == rated.currency
        && forall p, c :: Used(ledger, p, c) ==
             Used(old(ledger), p, c) + if p == f.project && c == rated.currency then rated.amount else 0
    {
      if DoUsage(View(), rates, f).1 == Ok { UsageRecorded(View(), rates, f); }
      var r := Billing.RateUsage(rates, f);
      if r.Err? { return NotRated(r.error); }
      var rated := r.value;
      hide Billing.RateUsage, Used;
      if f.project !in projects || projects[f.project] != f.tenant { return NotFound; }
      o := EnforceProjectBudget(f.project, f.tenant, rated.currency, rated.amount);
      if o != Ok { return; }
      if f.id in facts || !CurrencyCode(rated.currency) { return Conflict; }
      facts := facts[f.id := f];
      ratings := ratings[f.id := Rating(f.project, rated.amount, rated.currency)];
      ledger := ledger + [Entry(f.tenant, f.project, Some(f.id), Debit, rated.amount, rated.currency)];
    }

    method GetBudget(project: string) returns (view: BudgetView)
      ensures view == DoGetBudget(View(), project)
    {
      if project !in budgets { return NoBudget; }
      var b := budgets[project];
      var used := SumLedger(project, b.currency);
      if !IsInt64(used) { return Unreadable; }
      return BudgetView(b.limit, used, Wrap64(b.limit - used));
    }

    method SetBudget(tenant: string, project: string, rawCurrency: string, limit: int) returns (o: Outcome)
      modifies this
      ensures (View(), o) == DoSetBudget(old(View()), tenant, project, rawCurrency, limit)
    {
      if limit < 0 || limit > MAX_INT64 || |Trim(rawCurrency)| != 3 { return Invalid; }
      var currency := Upper(Trim(rawCurrency));
      if project !in projects || projects[project] != tenant { return NotFound; }
      var used := SumLedger(project, currency);
      if !IsInt64(used) { return OutOfRange; }
      if used > limit { return BudgetExceeded; }
      if !CurrencyCode(currency) { return Invalid; }
      if project in budgets {
        var b := budgets[project];
        budgets := budgets[project := Budget(b.tenant, currency, limit, b.generation + 1)];
      } else {
        budgets := budgets[project := Budget(tenant, currency, limit, 1)];
      }
      return Ok;
    }

    method CreateCreditAdjustment(
      tenant: string, project: string, amount: int, rawCurrency: string, reference: string, description: string)
      returns (o: Outcome)
      modifies this
      ensures (View(), o) == DoCredit(old(View()), tenant, project, amount, rawCurrency, reference, description)
    {
      if amount <= 0 || amount > MAX_INT64 || |Trim(rawCurrency)| != 3 || Blank(reference) || |reference| > 255 {
        return Invalid;
      }
      if |Trim(description)| > 1024 { return Invalid; }
      var currency := Upper(Trim(rawCurrency));
      if project !in projects || projects[project] != tenant { return NotFound; }
      if !CurrencyCode(currency) { return Invalid; }
      ledger := ledger + [Entry(tenant, project, None, Credit, amount, currency)];
      return Ok;
    }
  }
}
