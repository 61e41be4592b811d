/** Verdicts over the crypto operations observed at runtime. */
module Crypto {
  import opened Common

  datatype Kind = Cipher | Digest | Mac | Pbe | Random | UnknownKind

  datatype Purpose = Encrypt | Decrypt | Wrap | Unwrap | Hash | Sign | Verify | Derive | UnknownPurpose

  datatype IvSource = RandomIv | WeakRandomIv | ConstantIv | DerivedIv | UnknownIv | NoIv

  datatype KeyOrigin = UnknownOrigin | Generated | Derived | StaticRuntime | WeakRandomKey

  datatype Operation = Operation(
    id: string, kind: Kind, algorithm: string, mode: Option<string>, padding: Option<string>, purpose: Purpose,
    executed: bool, keyBits: Option<nat>, key: Option<string>, iv: Option<string>, ivSource: IvSource,
    ivZero: Option<bool>, keyOrigin: KeyOrigin, iterations: Option<nat>, canary: bool,
    source: string, environment: string)

  datatype Policy = Policy(minimumKeyBits: nat, weakAlgorithms: set<string>, minimumIterations: nat)

  const SYMMETRIC := {"AES", "DES", "3DES", "DESEDE", "RC4", "BLOWFISH", "TWOFISH", "CAMELLIA"}

  const WEAK_DIGESTS := {"MD5", "SHA1", "HMACSHA1"}

  datatype Rule =
    | WeakAlgorithm | WeakDigest | PredictableRandom | Ecb | ShortKey | StaticIv | ZeroIv | ReusedIv
    | LowIterations | StaticKey | CanaryBoundary | Incomplete | PolicyMet | Coverage

  datatype Status = Confirmed | Potential | Inconclusive | Pass

  datatype RuleResult = RuleResult(rule: Rule, status: Status, ids: seq<string>, eligible: bool)

  datatype Error = FixtureNotSimulated | MixedProvenance

  datatype Outcome = Failed(error: Error) | Reported(results: seq<RuleResult>)

  // ---------------------------------------------------------------- when a rule holds of an operation

  /** The rules in the order they are reported. */
  function Order(rule: Rule): nat {
    match rule
    case WeakAlgorithm => 0
    case WeakDigest => 1
    case PredictableRandom => 2
    case Ecb => 3
    case ShortKey => 4
    case StaticIv => 5
    case ZeroIv => 6
    case ReusedIv => 7
    case LowIterations => 8
    case StaticKey => 9
    case CanaryBoundary => 10
    case Incomplete => 11
    case PolicyMet => 12
    case Coverage => 13
  }

  function StatusOf(rule: Rule): Status {
    match rule
    case WeakDigest => Potential
    case LowIterations => Potential
    case StaticKey => Potential
    case Incomplete => Inconclusive
    case Coverage => Inconclusive
    case PolicyMet => Pass
    case _ => Confirmed
  }

  /** The capital letters and digits of a name. */
  function Squeeze(name: string): string {
    if name == "" then ""
    else (if 'A' <= name[0] <= 'Z' || '0' <= name[0] <= '9' then [name[0]] else "") + Squeeze(name[1..])
  }

  lemma Associative(a: string, b: string, c: string)
    ensures a + b + c == a + (b + c)
  {
  }

  lemma SqueezeFirst(name: string)
    requires name != ""
    ensures Squeeze(name) == Squeeze([name[0]]) + Squeeze(name[1..])
  {
    assert [name[0]][1..] == "";
  }

  /** Character by character, capital letters and digits stay and everything else goes. */
  lemma {:induction false} SqueezeKeeps(a: string, b: string, c: char)
    ensures Squeeze(a + b) == Squeeze(a) + Squeeze(b)
    ensures Squeeze([c]) == if 'A' <= c <= 'Z' || '0' <= c <= '9' then [c] else ""
  {
    if a == "" {
      assert a + b == b;
    } else {
      var rest := a[1..];
      SqueezeKeeps(rest, b, c);
      assert (a + b)[1..] == rest + b;
      Associative(Squeeze([a[0]]), Squeeze(rest), Squeeze(b));
      SqueezeFirst(a);
      SqueezeFirst(a + b);
    }
  }

  predicate CipherEncrypts(op: Operation) { op.kind.Cipher? && op.purpose.Encrypt? }

  /** What each rule but the one on reuse asks of a single operation. */
  predicate Breaks(rule: Rule, op: Operation, policy: Policy) {
    match rule
    case WeakAlgorithm => op.algorithm in policy.weakAlgorithms
    case WeakDigest => (op.kind.Digest? || op.kind.Mac?) && Squeeze(op.algorithm) in WEAK_DIGESTS
    case PredictableRandom => op.kind.Cipher? &&
        ((op.ivSource.WeakRandomIv? && op.purpose.Encrypt?) || op.keyOrigin.WeakRandomKey?)
    case Ecb => op.algorithm in SYMMETRIC && op.mode == Some("ECB")
    case ShortKey => op.algorithm in SYMMETRIC && op.keyBits.Some? && op.keyBits.value < policy.minimumKeyBits
    case StaticIv => op.purpose.Encrypt? && op.ivSource.ConstantIv? && op.ivZero != Some(true)
    case ZeroIv => CipherEncrypts(op) && op.ivZero == Some(true)
    case LowIterations => op.kind.Pbe? && op.iterations.Some? && op.iterations.value < policy.minimumIterations
    case StaticKey => op.keyOrigin.StaticRuntime?
    case CanaryBoundary => op.canary
    case Incomplete => op.kind.Cipher? && (op.mode.None? || op.padding.None?)
    case _ => false
  }

  /** Two encryptions under the same key and the same IV, reported as different operations. */
  predicate Collide(a: Operation, b: Operation) {
    && CipherEncrypts(a) && CipherEncrypts(b) && a.id != b.id
    && a.key.Some? && a.iv.Some? && a.key == b.key && a.iv == b.iv
  }

  /** Rule `rule` holds of `op` among the executed operations. */
  predicate Holds(rule: Rule, op: Operation, executed: seq<Operation>, policy: Policy) {
    if rule.ReusedIv? then exists other :: other in executed && Collide(op, other) else Breaks(rule, op, policy)
  }

  /** The ids of the operations among the first `n` of which the rule holds, in order. */
  ghost function IdsWhere(rule: Rule, executed: seq<Operation>, policy: Policy, n: nat): seq<string>
    requires n <= |executed|
  {
    if n == 0 then []
    else IdsWhere(rule, executed, policy, n - 1) +
         if Holds(rule, executed[n - 1], executed, policy) then [executed[n - 1].id] else []
  }

  lemma {:induction false} IdsWhereMembers(rule: Rule, executed: seq<Operation>, policy: Policy, n: nat, id: string)
    requires n <= |executed|
    ensures id in IdsWhere(rule, executed, policy, n) <==>
            exists i :: 0 <= i < n && executed[i].id == id && Holds(rule, executed[i], executed, policy)
  {
    if n > 0 {
      IdsWhereMembers(rule, executed, policy, n - 1, id);
    }
  }

  // ---------------------------------------------------------------- the report

  ghost function Report(rule: Rule, executed: seq<Operation>, policy: Policy): seq<string> {
    var ids := IdsWhere(rule, executed, policy, |executed|);
    if rule.ReusedIv? then Unique(ids) else ids
  }

  predicate Real(values: seq<Operation>) {
    exists op :: op in values && !(op.source == "fixture" && op.environment == "simulated")
  }

  ghost function ResultOf(rule: Rule, values: seq<Operation>, executed: seq<Operation>, policy: Policy): RuleResult {
    RuleResult(rule, StatusOf(rule), Report(rule, executed, policy), Real(values))
  }

  /** Those of the rules that hold of something are reported, in order, each once, with what they hold of. */
  ghost predicate Answers(output: seq<RuleResult>, values: seq<Operation>, executed: seq<Operation>, policy: Policy,
                          rules: seq<Rule>) {
    && (forall r :: r in output ==> r.rule in rules && r == ResultOf(r.rule, values, executed, policy) && r.ids != [])
    && (forall k, l :: 0 <= k < l < |output| ==> Order(output[k].rule) < Order(output[l].rule))
    && (forall rule :: rule in rules && Report(rule, executed, policy) != [] ==>
        ResultOf(rule, values, executed, policy) in output)
  }

  const ALGORITHM_RULES: seq<Rule> := [WeakAlgorithm, WeakDigest, PredictableRandom]

  const CIPHER_RULES: seq<Rule> := [Ecb, ShortKey]

  const VECTOR_RULES: seq<Rule> := [StaticIv, ZeroIv, ReusedIv]

  const MATERIAL_RULES: seq<Rule> := [LowIterations, StaticKey]

  const CONTEXT_RULES: seq<Rule> := [CanaryBoundary, Incomplete]

  const RULES: seq<Rule> := ALGORITHM_RULES + CIPHER_RULES + VECTOR_RULES + MATERIAL_RULES + CONTEXT_RULES

  /** The report once these rules have been applied. */
  ghost function Results(values: seq<Operation>, executed: seq<Operation>, policy: Policy,
                         rules: seq<Rule>): seq<RuleResult> {
    if rules == [] then []
    else
      var before, rule := Results(values, executed, policy, rules[..|rules| - 1]), rules[|rules| - 1];
      if Report(rule, executed, policy) == [] then before else before + [ResultOf(rule, values, executed, policy)]
  }

  lemma {:induction false} ResultsAnswer(values: seq<Operation>, executed: seq<Operation>, policy: Policy,
                                         rules: seq<Rule>)
    requires InOrder(rules)
    ensures Answers(Results(values, executed, policy, rules), values, executed, policy, rules)
  {
    if rules != [] {
      var earlier, rule := rules[..|rules| - 1], rules[|rules| - 1];
      assert rules == earlier + [rule];
      ResultsAnswer(values, executed, policy, earlier);
      OneMore(Results(values, executed, policy, earlier), values, executed, policy, earlier, rule);
    }
  }

  predicate InOrder(rules: seq<Rule>) {
    forall k, l :: 0 <= k < l < |rules| ==> Order(rules[k]) < Order(rules[l])
  }

  lemma OneMore(before: seq<RuleResult>, values: seq<Operation>, executed: seq<Operation>, policy: Policy,
                rules: seq<Rule>, rule: Rule)
    requires Answers(before, values, executed, policy, rules)
    requires forall earlier :: earlier in rules ==> Order(earlier) < Order(rule)
    ensures Answers(if Report(rule, executed, policy) == [] then before
                    else before + [ResultOf(rule, values, executed, policy)],
                    values, executed, policy, rules + [rule])
  {
  }

  lemma RulesInOrder()
    ensures InOrder(RULES)
    ensures forall rule :: rule in RULES <==> !rule.PolicyMet? && !rule.Coverage?
  {
    forall rule ensures rule in RULES <==> !rule.PolicyMet? && !rule.Coverage? {
      assert !rule.PolicyMet? && !rule.Coverage? ==> RULES[Order(rule)] == rule;
    }
    forall k | 0 <= k < |RULES| ensures Order(RULES[k]) == k {
    }
  }

  /** The operations a rule on single operations holds of. */
  method Select(rule: Rule, executed: seq<Operation>, policy: Policy) returns (ids: seq<string>)
    requires !rule.ReusedIv?
    ensures ids == Report(rule, executed, policy)
  {
    ids := [];
    for n := 0 to |executed|
      invariant ids == IdsWhere(rule, executed, policy, n)
    {
      if Breaks(rule, executed[n], policy) {
        ids := ids + [executed[n].id];
      }
    }
  }

  // ---------------------------------------------------------------- reuse of a key and an IV

  predicate Under(op: Operation, pair: (string, string)) {
    CipherEncrypts(op) && op.key == Some(pair.0) && op.iv == Some(pair.1)
  }

  predicate Grouped(grouped: map<(string, string), set<string>>, pair: (string, string), id: string) {
    pair in grouped && id in grouped[pair]
  }

  ghost predicate Uses(executed: seq<Operation>, n: nat, pair: (string, string), id: string)
    requires n <= |executed|
  {
    exists i :: 0 <= i < n && Under(executed[i], pair) && executed[i].id == id
  }

  /** The operations that encrypt under a key and an IV, by that pair. */
  method GroupByPair(executed: seq<Operation>) returns (grouped: map<(string, string), set<string>>)
    ensures forall pair, id :: Grouped(grouped, pair, id) <==> Uses(executed, |executed|, pair, id)
  {
    grouped := map[];
    for n := 0 to |executed|
      invariant forall pair, id :: Grouped(grouped, pair, id) <==> Uses(executed, n, pair, id)
    {
      var op := executed[n];
      ghost var before := grouped;
      if CipherEncrypts(op) && op.key.Some? && op.iv.Some? {
        var pair := (op.key.value, op.iv.value);
        grouped := grouped[pair := (if pair in grouped then grouped[pair] else {}) + {op.id}];
      }
      forall pair, id ensures Grouped(grouped, pair, id) <==> Uses(executed, n + 1, pair, id) {
        assert Grouped(grouped, pair, id) <==> Grouped(before, pair, id) || (Under(op, pair) && op.id == id);
        assert Uses(executed, n + 1, pair, id) <==> Uses(executed, n, pair, id) || (Under(op, pair) && op.id == id);
      }
    }
  }

  /** The operations that share a key and an IV with another one, each id once. */
  method FindReuse(executed: seq<Operation>, policy: Policy) returns (reused: seq<string>)
    ensures reused == Report(ReusedIv, executed, policy)
  {
    var grouped := GroupByPair(executed);
    reused := [];
    ghost var ids := [];
    for n := 0 to |executed|
      invariant ids == IdsWhere(ReusedIv, executed, policy, n)
      invariant reused == Unique(ids)
    {
      var op := executed[n];
      var taken := CipherEncrypts(op) && op.key.Some? && op.iv.Some? &&
                   (op.key.value, op.iv.value) in grouped && |grouped[(op.key.value, op.iv.value)]| >= 2;
      PairIsReused(executed, grouped, op);
      if taken {
        ids := ids + [op.id];
        assert ids[..|ids| - 1] == IdsWhere(ReusedIv, executed, policy, n);
        if op.id !in reused {
          reused := reused + [op.id];
        }
      }
    }
  }

  /** A pair under which two different ids are grouped is one on which two operations collide. */
  lemma PairIsReused(executed: seq<Operation>, grouped: map<(string, string), set<string>>, op: Operation)
    requires op in executed
    requires forall pair, id :: Grouped(grouped, pair, id) <==> Uses(executed, |executed|, pair, id)
    ensures (CipherEncrypts(op) && op.key.Some? && op.iv.Some? &&
             (op.key.value, op.iv.value) in grouped && |grouped[(op.key.value, op.iv.value)]| >= 2) <==>
            exists other :: other in executed && Collide(op, other)
  {
    if CipherEncrypts(op) && op.key.Some? && op.iv.Some? {
      var pair := (op.key.value, op.iv.value);
      var i :| 0 <= i < |executed| && executed[i] == op;
      assert Under(executed[i], pair) && Uses(executed, |executed|, pair, op.id);
      assert Grouped(grouped, pair, op.id);
      SeveralMembers(grouped[pair]);
      if |grouped[pair]| >= 2 {
        var a, b :| a in grouped[pair] && b in grouped[pair] && a != b;
        var id := if a != op.id then a else b;
        assert Grouped(grouped, pair, id) && Uses(executed, |executed|, pair, id);
        var j :| 0 <= j < |executed| && Under(executed[j], pair) && executed[j].id == id;
        assert Collide(op, executed[j]);
      }
      if other :| other in executed && Collide(op, other) {
        var j :| 0 <= j < |executed| && executed[j] == other;
        assert Under(executed[j], pair) && Uses(executed, |executed|, pair, other.id);
        assert Grouped(grouped, pair, other.id);
      }
    }
  }

  /** Applies one more rule. */
  method Apply(output: seq<RuleResult>, rule: Rule, values: seq<Operation>, executed: seq<Operation>, policy: Policy,
               ghost done: seq<Rule>)
    returns (next: seq<RuleResult>, ghost after: seq<Rule>)
    requires output == Results(values, executed, policy, done)
    ensures after == done + [rule]
    ensures next == Results(values, executed, policy, after)
  {
    var ids;
    if rule.ReusedIv? {
      ids := FindReuse(executed, policy);
    } else {
      ids := Select(rule, executed, policy);
    }
    after := done + [rule];
    assert after[..|after| - 1] == done;
    next := output;
    if ids != [] {
      next := output + [RuleResult(rule, StatusOf(rule), ids, Real(values))];
    }
  }

  // ---------------------------------------------------------------- the analysis

  /** A fixture that is not simulated, or a simulation that is no fixture. */
  predicate Ill(op: Operation) {
    || (op.source == "fixture" && op.environment != "simulated")
    || (op.source != "fixture" && op.environment == "simulated")
  }

  ghost predicate Mixed(values: seq<Operation>) {
    exists a, b :: a in values && b in values && (a.source, a.environment) != (b.source, b.environment)
  }

  function Executed(values: seq<Operation>): seq<Operation> {
    if values == [] then []
    else (if values[0].executed then [values[0]] else []) + Executed(values[1..])
  }

  /** What the analysis of well-formed evidence reports. */
  ghost predicate Right(results: seq<RuleResult>, values: seq<Operation>, policy: Policy) {
    var executed := Executed(values);
    if executed == [] then results == [RuleResult(Coverage, Inconclusive, [], Real(values))]
    else if forall rule :: Report(rule, executed, policy) == [] then
      exists ids :: results == [RuleResult(PolicyMet, Pass, ids, Real(values))] && IdsOf(executed) == ids
    else Answers(results, values, executed, policy, RULES)
  }

  function IdsOf(ops: seq<Operation>): seq<string> { if ops == [] then [] else [ops[0].id] + IdsOf(ops[1..]) }

  lemma MixedMeansSeveral(values: seq<Operation>)
    ensures Mixed(values) <==> |set op | op in values :: (op.source, op.environment)| > 1
  {
    var origins := set op | op in values :: (op.source, op.environment);
    SeveralMembers(origins);
    if a, b :| a in values && b in values && (a.source, a.environment) != (b.source, b.environment) {
      assert (a.source, a.environment) in origins && (b.source, b.environment) in origins;
    }
  }

  method Analyze(values: seq<Operation>, policy: Policy) returns (outcome: Outcome)
    ensures outcome == Failed(FixtureNotSimulated) <==> exists op :: op in values && Ill(op)
    ensures outcome == Failed(MixedProvenance) <==> Mixed(values) && forall op :: op in values ==> !Ill(op)
    ensures outcome.Reported? ==> Right(outcome.results, values, policy)
  {
    for n := 0 to |values|
      invariant forall i :: 0 <= i < n ==> !Ill(values[i])
    {
      if (values[n].source == "fixture") != (values[n].environment == "simulated") {
        assert Ill(values[n]);
        return Failed(FixtureNotSimulated);
      }
    }
    var origins := set op | op in values :: (op.source, op.environment);
    MixedMeansSeveral(values);
    if |origins| > 1 {
      return Failed(MixedProvenance);
    }
    var results := Evaluate(values, policy);
    outcome := Reported(results);
  }

  method Evaluate(values: seq<Operation>, policy: Policy) returns (output: seq<RuleResult>)
    ensures Right(output, values, policy)
  {
    var executed := Executed(values);
    if executed == [] {
      return [RuleResult(Coverage, Inconclusive, [], Real(values))];
    }
    output := ApplyRules(values, executed, policy);
    NothingReported(output, values, executed, policy);
    if output == [] {
      output := [RuleResult(PolicyMet, Pass, IdsOf(executed), Real(values))];
    }
  }

  lemma NothingReported(output: seq<RuleResult>, values: seq<Operation>, executed: seq<Operation>, policy: Policy)
    requires Answers(output, values, executed, policy, RULES)
    ensures output == [] <==> forall rule :: Report(rule, executed, policy) == []
  {
    RulesInOrder();
    if output == [] {
      forall rule ensures Report(rule, executed, policy) == [] {
        if rule !in RULES {
          NothingWhere(rule, executed, policy, |executed|);
        }
      }
    } else {
      assert output[0] in output && Report(output[0].rule, executed, policy) != [];
    }
  }

  lemma NothingWhere(rule: Rule, executed: seq<Operation>, policy: Policy, n: nat)
    requires n <= |executed| && (rule.PolicyMet? || rule.Coverage?)
    ensures IdsWhere(rule, executed, policy, n) == []
  {
  }

  method ApplyRules(values: seq<Operation>, executed: seq<Operation>, policy: Policy) returns (output: seq<RuleResult>)
    ensures Answers(output, values, executed, policy, RULES)
  {
    ghost var done: seq<Rule> := [];
    output := [];
    output, done := ApplyAlgorithmRules(output, values, executed, policy, done);
    output, done := ApplyCipherRules(output, values, executed, policy, done);
    output, done := ApplyVectorRules(output, values, executed, policy, done);
    output, done := ApplyMaterialRules(output, values, executed, policy, done);
    output, done := ApplyContextRules(output, values, executed, policy, done);
    assert [] + ALGORITHM_RULES == ALGORITHM_RULES;
    RulesInOrder();
    ResultsAnswer(values, executed, policy, RULES);
  }

  method ApplyAlgorithmRules(output: seq<RuleResult>, values: seq<Operation>, executed: seq<Operation>, policy: Policy,
                             ghost done: seq<Rule>)
    returns (next: seq<RuleResult>, ghost after: seq<Rule>)
    requires output == Results(values, executed, policy, done)
    ensures after == done + ALGORITHM_RULES
    ensures next == Results(values, executed, policy, after)
  {
    next, after := output, done;
    next, after := Apply(next, WeakAlgorithm, values, executed, policy, after);
    next, after := Apply(next, WeakDigest, values, executed, policy, after);
    next, after := Apply(next, PredictableRandom, values, executed, policy, after);
  }

  method ApplyCipherRules(output: seq<RuleResult>, values: seq<Operation>, executed: seq<Operation>, policy: Policy,
                          ghost done: seq<Rule>)
    returns (next: seq<RuleResult>, ghost after: seq<Rule>)
    requires output == Results(values, executed, policy, done)
    ensures after == done + CIPHER_RULES
    ensures next == Results(values, executed, policy, after)
  {
    next, after := output, done;
    next, after := Apply(next, Ecb, values, executed, policy, after);
    next, after := Apply(next, ShortKey, values, executed, policy, after);
  }

  method ApplyVectorRules(output: seq<RuleResult>, values: seq<Operation>, executed: seq<Operation>, policy: Policy,
                          ghost done: seq<Rule>)
    returns (next: seq<RuleResult>, ghost after: seq<Rule>)
    requires output == Results(values, executed, policy, done)
    ensures after == done + VECTOR_RULES
    ensures next == Results(values, executed, policy, after)
  {
    next, after := output, done;
    next, after := Apply(next, StaticIv, values, executed, policy, after);
    next, after := Apply(next, ZeroIv, values, executed, policy, after);
    next, after := Apply(next, ReusedIv, values, executed, policy, after);
  }

  method ApplyMaterialRules(output: seq<RuleResult>, values: seq<Operation>, executed: seq<Operation>, policy: Policy,
                            ghost done: seq<Rule>)
    returns (next: seq<RuleResult>, ghost after: seq<Rule>)
    requires output == Results(values, executed, policy, done)
    ensures after == done + MATERIAL_RULES
    ensures next == Results(values, executed, policy, after)
  {
    next, after := output, done;
    next, after := Apply(next, LowIterations, values, executed, policy, after);
    next, after := Apply(next, StaticKey, values, executed, policy, after);
  }

  method ApplyContextRules(output: seq<RuleResult>, values: seq<Operation>, executed: seq<Operation>, policy: Policy,
                           ghost done: seq<Rule>)
    returns (next: seq<RuleResult>, ghost after: seq<Rule>)
    requires output == Results(values, executed, policy, done)
    ensures after == done + CONTEXT_RULES
    ensures next == Results(values, executed, policy, after)
  {
    next, after := output, done;
    next, after := Apply(next, CanaryBoundary, values, executed, policy, after);
    next, after := Apply(next, Incomplete, values, executed, policy, after);
  }

  // ---------------------------------------------------------------- what the report means

  lemma {:induction false} ExecutedAreExecuted(values: seq<Operation>, op: Operation)
    ensures op in Executed(values) <==> op in values && op.executed
  {
    if values != [] {
      ExecutedAreExecuted(values[1..], op);
      assert values == [values[0]] + values[1..];
    }
  }

  lemma ReportIsAbout(rule: Rule, executed: seq<Operation>, policy: Policy, id: string)
    ensures id in Report(rule, executed, policy) <==>
            exists op :: op in executed && op.id == id && Holds(rule, op, executed, policy)
  {
    IdsWhereMembers(rule, executed, policy, |executed|, id);
    UniqueKeepsFirsts(IdsWhere(rule, executed, policy, |executed|));
    if op :| op in executed && op.id == id && Holds(rule, op, executed, policy) {
      var i :| 0 <= i < |executed| && executed[i] == op;
    }
  }

  /**
   * PASS is reported exactly when something was executed and no rule holds of any executed operation or pair of them.
   */
  lemma PassMeansNothingHolds(results: seq<RuleResult>, values: seq<Operation>, policy: Policy)
    requires Right(results, values, policy)
    ensures (exists r :: r in results && r.status.Pass?) <==>
            && (exists op :: op in values && op.executed)
            && (forall rule, op :: op in values && op.executed ==> !Holds(rule, op, Executed(values), policy))
  {
    var executed := Executed(values);
    forall op ensures op in executed <==> op in values && op.executed {
      ExecutedAreExecuted(values, op);
    }
    SomethingExecuted(executed);
    PassMeansNothingReported(results, values, policy);
    NothingHolds(executed, policy);
  }

  lemma NothingHolds(executed: seq<Operation>, policy: Policy)
    ensures (forall rule :: Report(rule, executed, policy) == []) <==>
            forall rule, op :: op in executed ==> !Holds(rule, op, executed, policy)
  {
    forall rule ensures Report(rule, executed, policy) == [] <==>
                        forall op :: op in executed ==> !Holds(rule, op, executed, policy) {
      EmptyReport(rule, executed, policy);
    }
    if forall rule :: Report(rule, executed, policy) == [] {
      forall rule, op | op in executed ensures !Holds(rule, op, executed, policy) {
        assert Report(rule, executed, policy) == [];
      }
    }
  }

  lemma SomethingExecuted(executed: seq<Operation>)
    ensures executed != [] <==> exists op :: op in executed
  {
    if executed != [] {
      assert executed[0] in executed;
    }
  }

  lemma PassMeansNothingReported(results: seq<RuleResult>, values: seq<Operation>, policy: Policy)
    requires Right(results, values, policy)
    ensures (exists r :: r in results && r.status.Pass?) <==>
            Executed(values) != [] && forall rule :: Report(rule, Executed(values), policy) == []
  {
    var executed := Executed(values);
    if executed != [] && forall rule :: Report(rule, executed, policy) == [] {
      assert results[0].status.Pass? && results[0] in results;
    } else if executed != [] {
      RulesInOrder();
      assert Answers(results, values, executed, policy, RULES);
      forall r | r in results ensures !r.status.Pass? {
        assert r.rule in RULES && r.status == StatusOf(r.rule);
      }
    }
  }

  lemma EmptyReport(rule: Rule, executed: seq<Operation>, policy: Policy)
    ensures Report(rule, executed, policy) == [] <==> forall op :: op in executed ==> !Holds(rule, op, executed, policy)
  {
    var ids := Report(rule, executed, policy);
    if ids != [] {
      ReportIsAbout(rule, executed, policy, ids[0]);
    }
    forall op | op in executed && Holds(rule, op, executed, policy) ensures ids != [] {
      ReportIsAbout(rule, executed, policy, op.id);
    }
  }

  /** An executed encryption under this id shares its key and its IV with one under another id. */
  ghost predicate TakesPart(values: seq<Operation>, id: string) {
    exists a, b :: a in values && b in values && a.executed && b.executed && Collide(a, b) && a.id == id
  }

  /**
   * Reuse is reported exactly when two executed encryptions with different ids share a key and an IV, and then for
   * exactly the ids that take part in such a pair, each of them once.
   */
  lemma ReuseIsPairwise(results: seq<RuleResult>, values: seq<Operation>, policy: Policy)
    requires Right(results, values, policy)
    ensures (exists r :: r in results && r.rule.ReusedIv?) <==> exists id :: TakesPart(values, id)
    ensures forall r :: r in results && r.rule.ReusedIv? ==>
              && (forall id :: id in r.ids <==> TakesPart(values, id))
              && (forall i, j :: 0 <= i < j < |r.ids| ==> r.ids[i] != r.ids[j])
  {
    var executed := Executed(values);
    var ids := Report(ReusedIv, executed, policy);
    forall id ensures id in ids <==> TakesPart(values, id) {
      ReuseIsAbout(values, policy, id);
    }
    UniqueKeepsFirsts(IdsWhere(ReusedIv, executed, policy, |executed|));
    RulesInOrder();
    RuleReported(results, values, policy, ReusedIv);
    if ids != [] {
      assert ids[0] in ids;
    }
  }

  lemma ReuseIsAbout(values: seq<Operation>, policy: Policy, id: string)
    ensures id in Report(ReusedIv, Executed(values), policy) <==> TakesPart(values, id)
  {
    var executed := Executed(values);
    ReportIsAbout(ReusedIv, executed, policy, id);
    forall op ensures op in executed <==> op in values && op.executed {
      ExecutedAreExecuted(values, op);
    }
  }

  lemma RuleReported(results: seq<RuleResult>, values: seq<Operation>, policy: Policy, rule: Rule)
    requires Right(results, values, policy) && rule in RULES
    ensures (exists r :: r in results && r.rule == rule) <==> Report(rule, Executed(values), policy) != []
    ensures forall r :: r in results && r.rule == rule ==> r.ids == Report(rule, Executed(values), policy)
  {
    var executed := Executed(values);
    RulesInOrder();
    if executed == [] || forall other :: Report(other, executed, policy) == [] {
      assert results[0].rule != rule;
    } else {
      assert Answers(results, values, executed, policy, RULES);
      if Report(rule, executed, policy) != [] {
        assert ResultOf(rule, values, executed, policy) in results;
      }
    }
  }

  /** A rule is reported exactly when it holds of an executed operation, and then with the ids it holds of. */
  lemma ReportsWhatHolds(results: seq<RuleResult>, values: seq<Operation>, policy: Policy, rule: Rule)
    requires Right(results, values, policy) && rule in RULES
    ensures (exists r :: r in results && r.rule == rule) <==>
            exists op :: op in values && op.executed && Holds(rule, op, Executed(values), policy)
    ensures forall r, id :: r in results && r.rule == rule ==>
              (id in r.ids <==>
               exists op :: op in values && op.executed && op.id == id && Holds(rule, op, Executed(values), policy))
  {
    var executed := Executed(values);
    RuleReported(results, values, policy, rule);
    forall op ensures op in executed <==> op in values && op.executed {
      ExecutedAreExecuted(values, op);
    }
    EmptyReport(rule, executed, policy);
    forall id ensures id in Report(rule, executed, policy) <==>
                      exists op :: op in executed && op.id == id && Holds(rule, op, executed, policy) {
      ReportIsAbout(rule, executed, policy, id);
    }
  }

  /** Nothing about the operation is weak: each condition spelled out. */
  predicate Strong(op: Operation, policy: Policy) {
    && op.algorithm !in policy.weakAlgorithms
    && (op.kind.Digest? || op.kind.Mac? ==>
          Squeeze(op.algorithm) != "MD5" && Squeeze(op.algorithm) != "SHA1" && Squeeze(op.algorithm) != "HMACSHA1")
    && (op.kind.Cipher? ==>
          && !op.keyOrigin.WeakRandomKey? && op.mode.Some? && op.padding.Some?
          && (op.purpose.Encrypt? ==> !op.ivSource.WeakRandomIv? && op.ivZero != Some(true)))
    && (op.algorithm in {"AES", "DES", "3DES", "DESEDE", "RC4", "BLOWFISH", "TWOFISH", "CAMELLIA"} ==>
          op.mode != Some("ECB") && (op.keyBits.Some? ==> op.keyBits.value >= policy.minimumKeyBits))
    && (op.purpose.Encrypt? && op.ivSource.ConstantIv? ==> op.ivZero == Some(true))
    && (op.kind.Pbe? && op.iterations.Some? ==> op.iterations.value >= policy.minimumIterations)
    && !op.keyOrigin.StaticRuntime? && !op.canary
  }

  lemma StrongBreaksNothing(op: Operation, policy: Policy)
    ensures Strong(op, policy) <==> forall rule :: !Breaks(rule, op, policy)
  {
    forall rule ensures Strong(op, policy) ==> !Breaks(rule, op, policy) {
      StrongKeeps(rule, op, policy);
    }
    if forall rule :: !Breaks(rule, op, policy) {
      UnbrokenIsStrong(op, policy);
    }
  }

  lemma StrongKeeps(rule: Rule, op: Operation, policy: Policy)
    ensures Strong(op, policy) ==> !Breaks(rule, op, policy)
  {
  }

  lemma UnbrokenIsStrong(op: Operation, policy: Policy)
    requires forall rule :: !Breaks(rule, op, policy)
    ensures Strong(op, policy)
  {
    assert !Breaks(WeakAlgorithm, op, policy) && !Breaks(WeakDigest, op, policy) &&
        !Breaks(PredictableRandom, op, policy);
    assert !Breaks(Ecb, op, policy) && !Breaks(ShortKey, op, policy) && !Breaks(StaticIv, op, policy);
    assert !Breaks(ZeroIv, op, policy) && !Breaks(LowIterations, op, policy) && !Breaks(StaticKey, op, policy);
    assert !Breaks(CanaryBoundary, op, policy) && !Breaks(Incomplete, op, policy);
  }

  ghost predicate AllStrong(ops: seq<Operation>, policy: Policy) { forall op :: op in ops ==> Strong(op, policy) }

  ghost predicate NoCollision(ops: seq<Operation>) { forall a, b :: a in ops && b in ops ==> !Collide(a, b) }

  ghost predicate NothingAgainst(op: Operation, executed: seq<Operation>, policy: Policy) {
    forall rule :: !Holds(rule, op, executed, policy)
  }

  lemma NothingAgainstStrong(op: Operation, executed: seq<Operation>, policy: Policy)
    ensures NothingAgainst(op, executed, policy) <==>
            Strong(op, policy) && forall other :: other in executed ==> !Collide(op, other)
  {
    HoldsOrBreaks(op, executed, policy);
    StrongBreaksNothing(op, policy);
  }

  lemma NothingAgainstAny(executed: seq<Operation>, policy: Policy)
    ensures (forall op :: op in executed ==> NothingAgainst(op, executed, policy)) <==>
            AllStrong(executed, policy) && NoCollision(executed)
  {
    forall op ensures NothingAgainst(op, executed, policy) <==>
                      Strong(op, policy) && forall other :: other in executed ==> !Collide(op, other) {
      NothingAgainstStrong(op, executed, policy);
    }
  }

  /**
   * PASS on the fields of the operations: something was executed, every executed operation is strong, and no two
   * encryptions with different ids share a key and an IV.
   */
  lemma PassOnFields(results: seq<RuleResult>, values: seq<Operation>, policy: Policy)
    requires Right(results, values, policy)
    ensures (exists r :: r in results && r.status.Pass?) <==>
            Executed(values) != [] && AllStrong(Executed(values), policy) && NoCollision(Executed(values))
    ensures forall op :: op in Executed(values) <==> op in values && op.executed
  {
    var executed := Executed(values);
    forall op ensures op in executed <==> op in values && op.executed {
      ExecutedAreExecuted(values, op);
    }
    PassMeansNothingReported(results, values, policy);
    NothingHolds(executed, policy);
    NothingAgainstAny(executed, policy);
    assert (forall rule, op :: op in executed ==> !Holds(rule, op, executed, policy)) <==>
           (forall op :: op in executed ==> NothingAgainst(op, executed, policy)) by {
      NothingIsNothing(executed, policy);
    }
  }

  lemma NothingIsNothing(executed: seq<Operation>, policy: Policy)
    ensures (forall rule, op :: op in executed ==> !Holds(rule, op, executed, policy)) <==>
            forall op :: op in executed ==> NothingAgainst(op, executed, policy)
  {
    if forall op :: op in executed ==> NothingAgainst(op, executed, policy) {
      forall rule, op | op in executed ensures !Holds(rule, op, executed, policy) {
        assert NothingAgainst(op, executed, policy);
      }
    }
  }

  lemma HoldsOrBreaks(op: Operation, executed: seq<Operation>, policy: Policy)
    ensures (forall rule :: !Holds(rule, op, executed, policy)) <==>
            (forall rule :: !Breaks(rule, op, policy)) && forall other :: other in executed ==> !Collide(op, other)
  {
    assert !Breaks(ReusedIv, op, policy);
    assert Holds(ReusedIv, op, executed, policy) <==> exists other :: other in executed && Collide(op, other);
    assert forall rule: Rule :: !rule.ReusedIv? ==> (Holds(rule, op, executed, policy) <==> Breaks(rule, op, policy));
  }

  /** How sure the report is of what: weak signals stay potential, missing context inconclusive. */
  lemma ReportedStatuses(results: seq<RuleResult>, values: seq<Operation>, policy: Policy, r: RuleResult)
    requires Right(results, values, policy) && r in results
    ensures r.status.Potential? <==> r.rule in {WeakDigest, LowIterations, StaticKey}
    ensures r.status.Inconclusive? <==> r.rule in {Incomplete, Coverage}
    ensures r.status.Pass? <==> r.rule.PolicyMet?
    ensures r.eligible <==> exists op :: op in values && !(op.source == "fixture" && op.environment == "simulated")
  {
    var executed := Executed(values);
    if executed != [] && !(forall rule :: Report(rule, executed, policy) == []) {
      RulesInOrder();
      assert Answers(results, values, executed, policy, RULES);
      assert r == ResultOf(r.rule, values, executed, policy) && r.rule in RULES;
    }
  }
}
