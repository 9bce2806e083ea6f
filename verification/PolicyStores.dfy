/**
 The rule stores and the intercept queues (packages/integrations/policy-store/src/index.ts),
 in memory and on file. The file is modelled by the array it holds. Every run of calls
 gets the same answers and the same errors from both.
 */
module PolicyStores {
  import opened Prelude
  import opened Sorting
  import opened KeyedStores
  import opened AuditEvents
  import opened PolicyEngine

  /** `InMemory` keeps a map in insertion order; `OnFile` sorts the array on every write. */
  datatype Medium = InMemory | OnFile

  function Write<T>(m: Medium, k: Keying<T>, xs: seq<T>): seq<T> {
    if m == OnFile then Saved(k, xs) else xs
  }

  datatype StoreError = Invalid | AlreadyExists(id: string) | DoesNotExist(id: string)

  datatype Answer<T> = Done | Failed(error: StoreError) | Listed(items: seq<T>) | Found(item: Option<T>)

  // ---------------------------------------------------------------- rules

  const RULES: Keying<Rule> := Keying((r: Rule) => r.id, (r: Rule) => r.createdAt)

  predicate IsActive(r: Rule) { r.status == Active }

  datatype RuleCall = PutRule(rule: Rule) | UpdateRule(rule: Rule) | ActiveRules | AllRules | RuleById(id: string)

  /** The answer to a call and the stored rules after it. */
  function OnRules(m: Medium, rules: seq<Rule>, call: RuleCall): (Answer<Rule>, seq<Rule>) {
    match call
    case PutRule(r) =>
      if !ValidRule(r) then (Failed(Invalid), rules)
      else if Has(RULES, rules, r.id) then (Failed(AlreadyExists(r.id)), rules)
      else (Done, Write(m, RULES, rules + [r]))
    case UpdateRule(r) =>
      if !ValidRule(r) then (Failed(Invalid), rules)
      else if !Has(RULES, rules, r.id) then (Failed(DoesNotExist(r.id)), rules)
      else (Done, Write(m, RULES, Replace(RULES, rules, r)))
    case ActiveRules => (Listed(Filter(Saved(RULES, rules), IsActive)), rules)
    case AllRules => (Listed(Saved(RULES, rules)), rules)
    case RuleById(id) => (Found(Lookup(RULES, rules, id)), rules)
  }

  class InMemoryPolicyStore {
    var rules: seq<Rule>

    constructor ()
      ensures rules == []
    {
      rules := [];
    }

    method PutRule(rule: Rule) returns (r: Answer<Rule>)
      modifies this
      ensures (r, rules) == OnRules(InMemory, old(rules), RuleCall.PutRule(rule))
    {
      if !ValidRule(rule) { return Failed(Invalid); }
      if Has(RULES, rules, rule.id) { return Failed(AlreadyExists(rule.id)); }
      rules := rules + [rule];
      r := Done;
    }

    method UpdateRule(rule: Rule) returns (r: Answer<Rule>)
      modifies this
      ensures (r, rules) == OnRules(InMemory, old(rules), RuleCall.UpdateRule(rule))
    {
      if !ValidRule(rule) { return Failed(Invalid); }
      if !Has(RULES, rules, rule.id) { return Failed(DoesNotExist(rule.id)); }
      rules := rules[Find(RULES, rules, rule.id) := rule];
      r := Done;
    }

    method ActiveRules() returns (active: seq<Rule>)
      ensures exists all :: IsListing(RULES, all, rules) && Selects(active, all, IsActive)
      ensures forall r :: r in active <==> r in rules && r.status == Active
      ensures Distinct(RULES, rules) ==> Distinct(RULES, active) && InOrder((r: Rule) => r.createdAt, (r: Rule) => r.id, active)
      ensures (Listed(active), rules) == OnRules(InMemory, rules, RuleCall.ActiveRules)
    {
      ActiveListing(rules);
      active := Filter(Sort(rules, Order(RULES)), IsActive);
    }

    method AllRules() returns (all: seq<Rule>)
      ensures IsListing(RULES, all, rules)
      ensures (Listed(all), rules) == OnRules(InMemory, rules, RuleCall.AllRules)
    {
      SavedLists(RULES, rules);
      all := Sort(rules, Order(RULES));
    }

    method ById(id: string) returns (r: Option<Rule>)
      ensures IsStored(RULES, rules, id, r)
      ensures (Found(r), rules) == OnRules(InMemory, rules, RuleById(id))
    {
      LookupFinds(RULES, rules, id);
      r := Lookup(RULES, rules, id);
    }
  }

  class FilePolicyStore {
    var file: seq<Rule>

    constructor ()
      ensures file == []
    {
      file := [];
    }

    method PutRule(rule: Rule) returns (r: Answer<Rule>)
      modifies this
      ensures (r, file) == OnRules(OnFile, old(file), RuleCall.PutRule(rule))
    {
      if !ValidRule(rule) { return Failed(Invalid); }
      var rules := file;
      if Has(RULES, rules, rule.id) { return Failed(AlreadyExists(rule.id)); }
      rules := rules + [rule];
      file := Sort(rules, Order(RULES));
      r := Done;
    }

    method UpdateRule(rule: Rule) returns (r: Answer<Rule>)
      modifies this
      ensures (r, file) == OnRules(OnFile, old(file), RuleCall.UpdateRule(rule))
    {
      if !ValidRule(rule) { return Failed(Invalid); }
      var rules := file;
      var index := Find(RULES, rules, rule.id);
      if index == |rules| { return Failed(DoesNotExist(rule.id)); }
      rules := rules[index := rule];
      file := Sort(rules, Order(RULES));
      r := Done;
    }

    method ActiveRules() returns (active: seq<Rule>)
      ensures exists all :: IsListing(RULES, all, file) && Selects(active, all, IsActive)
      ensures forall r :: r in active <==> r in file && r.status == Active
      ensures Distinct(RULES, file) ==> Distinct(RULES, active) && InOrder((r: Rule) => r.createdAt, (r: Rule) => r.id, active)
      ensures (Listed(active), file) == OnRules(OnFile, file, RuleCall.ActiveRules)
    {
      ActiveListing(file);
      active := Filter(Sort(file, Order(RULES)), IsActive);
    }

    method AllRules() returns (all: seq<Rule>)
      ensures IsListing(RULES, all, file)
      ensures (Listed(all), file) == OnRules(OnFile, file, RuleCall.AllRules)
    {
      SavedLists(RULES, file);
      all := Sort(file, Order(RULES));
    }

    method ById(id: string) returns (r: Option<Rule>)
      ensures IsStored(RULES, file, id, r)
      ensures (Found(r), file) == OnRules(OnFile, file, RuleById(id))
    {
      LookupFinds(RULES, file, id);
      r := Lookup(RULES, file, id);
    }
  }

  /** The active rules are the listing without the others. */
  lemma ActiveListing(rules: seq<Rule>)
    ensures var all, active := Saved(RULES, rules), Filter(Saved(RULES, rules), IsActive);
      && IsListing(RULES, all, rules) && Selects(active, all, IsActive)
      && (forall r :: r in active <==> r in rules && r.status == Active)
      && (Distinct(RULES, rules) ==> Distinct(RULES, active) && InOrder((r: Rule) => r.createdAt, (r: Rule) => r.id, active))
  {
    var all, active := Saved(RULES, rules), Filter(Saved(RULES, rules), IsActive);
    SavedLists(RULES, rules);
    FilterSelects(all, IsActive);
    FilterMembers(all, IsActive);
    SameElements(all, rules);
    forall r ensures r in all <==> r in rules {
      assert r in Elements(all) <==> r in Elements(rules);
    }
    if Distinct(RULES, rules) {
      SelectSorted(active, all, IsActive, Order(RULES));
      WithoutDistinct(RULES, all, IsActive);
    }
  }

  function RuleAnswers(m: Medium, rules: seq<Rule>, calls: seq<RuleCall>): seq<Answer<Rule>>
    decreases |calls|
  {
    if calls == [] then []
    else var (answer, rules') := OnRules(m, rules, calls[0]); [answer] + RuleAnswers(m, rules', calls[1..])
  }

  lemma RuleCallAgrees(file: seq<Rule>, rules: seq<Rule>, call: RuleCall)
    requires Backs(RULES, file, rules)
    ensures OnRules(OnFile, file, call).0 == OnRules(InMemory, rules, call).0
    ensures Backs(RULES, OnRules(OnFile, file, call).1, OnRules(InMemory, rules, call).1)
  {
    hide ValidRule, Backs, Saved;
    match call
    case PutRule(r) =>
      BacksLookup(RULES, file, rules, r.id);
      if !Has(RULES, rules, r.id) { BacksAdd(RULES, file, rules, r); }
    case UpdateRule(r) =>
      BacksLookup(RULES, file, rules, r.id);
      if Has(RULES, rules, r.id) { BacksReplace(RULES, file, rules, r); }
    case ActiveRules => BacksSorted(RULES, file, rules);
    case AllRules => BacksSorted(RULES, file, rules);
    case RuleById(id) => BacksLookup(RULES, file, rules, id);
  }

  /** Every run of calls gets the same answers from the file as from memory. */
  lemma {:induction false} RuleStoresAgree(file: seq<Rule>, rules: seq<Rule>, calls: seq<RuleCall>)
    requires Backs(RULES, file, rules)
    ensures RuleAnswers(OnFile, file, calls) == RuleAnswers(InMemory, rules, calls)
    decreases |calls|
  {
    hide OnRules, Backs;
    if calls != [] {
      RuleCallAgrees(file, rules, calls[0]);
      RuleStoresAgree(OnRules(OnFile, file, calls[0]).1, OnRules(InMemory, rules, calls[0]).1, calls[1..]);
    }
  }

  // ---------------------------------------------------------------- the intercept queue

  datatype QueuedIntercept = QueuedIntercept(id: string, action: Action, enqueuedAt: string)

  const ITEMS: Keying<QueuedIntercept> := Keying((q: QueuedIntercept) => q.id, (q: QueuedIntercept) => q.enqueuedAt)

  /** `parseQueuedIntercept` accepts the item. */
  predicate ValidItem(q: QueuedIntercept) { q.id != "" && IsTimestamp(q.enqueuedAt) && ValidAction(q.action) }

  datatype QueueCall = Enqueue(item: QueuedIntercept) | Pending | Remove(id: string)

  /** In memory only the action is parsed; the file store parses the whole item. */
  function OnQueue(m: Medium, items: seq<QueuedIntercept>, call: QueueCall): (Answer<QueuedIntercept>, seq<QueuedIntercept>) {
    match call
    case Enqueue(q) =>
      if (if m == InMemory then !ValidAction(q.action) else !ValidItem(q)) then (Failed(Invalid), items)
      else if Has(ITEMS, items, q.id) then (Failed(AlreadyExists(q.id)), items)
      else (Done, Write(m, ITEMS, items + [q]))
    case Pending => (Listed(Saved(ITEMS, items)), items)
    case Remove(id) =>
      var item := Lookup(ITEMS, items, id);
      (Found(item), if item.None? then items else Write(m, ITEMS, Without(ITEMS, items, id)))
  }

  class InMemoryInterceptQueue {
    var items: seq<QueuedIntercept>

    constructor ()
      ensures items == []
    {
      items := [];
    }

    method Enqueue(item: QueuedIntercept) returns (r: Answer<QueuedIntercept>)
      modifies this
      ensures (r, items) == OnQueue(InMemory, old(items), QueueCall.Enqueue(item))
    {
      if !ValidAction(item.action) { return Failed(Invalid); }
      if Has(ITEMS, items, item.id) { return Failed(AlreadyExists(item.id)); }
      items := items + [item];
      r := Done;
    }

    method Pending() returns (pending: seq<QueuedIntercept>)
      ensures IsListing(ITEMS, pending, items)
      ensures Distinct(ITEMS, items) ==> InOrder((q: QueuedIntercept) => q.enqueuedAt, (q: QueuedIntercept) => q.id, pending)
      ensures (Listed(pending), items) == OnQueue(InMemory, items, QueueCall.Pending)
    {
      SavedLists(ITEMS, items);
      pending := Sort(items, Order(ITEMS));
    }

    method Remove(id: string) returns (item: Option<QueuedIntercept>)
      modifies this
      ensures (Found(item), items) == OnQueue(InMemory, old(items), QueueCall.Remove(id))
    {
      item := Lookup(ITEMS, items, id);
      DeleteAbsent(items, id);
      items := Without(ITEMS, items, id);
    }
  }

  class FileInterceptQueue {
    var file: seq<QueuedIntercept>

    constructor ()
      ensures file == []
    {
      file := [];
    }

    method Enqueue(item: QueuedIntercept) returns (r: Answer<QueuedIntercept>)
      modifies this
      ensures (r, file) == OnQueue(OnFile, old(file), QueueCall.Enqueue(item))
    {
      if !ValidItem(item) { return Failed(Invalid); }
      var items := file;
      if Has(ITEMS, items, item.id) { return Failed(AlreadyExists(item.id)); }
      items := items + [item];
      file := Sort(items, Order(ITEMS));
      r := Done;
    }

    method Pending() returns (pending: seq<QueuedIntercept>)
      ensures IsListing(ITEMS, pending, file)
      ensures Distinct(ITEMS, file) ==> InOrder((q: QueuedIntercept) => q.enqueuedAt, (q: QueuedIntercept) => q.id, pending)
      ensures (Listed(pending), file) == OnQueue(OnFile, file, QueueCall.Pending)
    {
      SavedLists(ITEMS, file);
      pending := Sort(file, Order(ITEMS));
    }

    method Remove(id: string) returns (item: Option<QueuedIntercept>)
      modifies this
      ensures (Found(item), file) == OnQueue(OnFile, old(file), QueueCall.Remove(id))
    {
      item := Lookup(ITEMS, file, id);
      if item.None? { return; }
      file := Sort(Without(ITEMS, file, id), Order(ITEMS));
    }
  }

  lemma {:induction false} DeleteAbsent(items: seq<QueuedIntercept>, id: string)
    ensures !Has(ITEMS, items, id) ==> Without(ITEMS, items, id) == items
  {
    if items != [] && items[0].id != id {
      DeleteAbsent(items[1..], id);
      assert items == [items[0]] + items[1..];
    }
  }

  function QueueAnswers(m: Medium, items: seq<QueuedIntercept>, calls: seq<QueueCall>): seq<Answer<QueuedIntercept>>
    decreases |calls|
  {
    if calls == [] then []
    else var (answer, items') := OnQueue(m, items, calls[0]); [answer] + QueueAnswers(m, items', calls[1..])
  }

  predicate ValidQueueCall(call: QueueCall) { call.Enqueue? ==> ValidItem(call.item) }

  lemma QueueCallAgrees(file: seq<QueuedIntercept>, items: seq<QueuedIntercept>, call: QueueCall)
    requires Backs(ITEMS, file, items) && ValidQueueCall(call)
    ensures OnQueue(OnFile, file, call).0 == OnQueue(InMemory, items, call).0
    ensures Backs(ITEMS, OnQueue(OnFile, file, call).1, OnQueue(InMemory, items, call).1)
  {
    hide ValidAction, Backs, Saved;
    match call
    case Enqueue(q) =>
      BacksLookup(ITEMS, file, items, q.id);
      if !Has(ITEMS, items, q.id) { BacksAdd(ITEMS, file, items, q); }
    case Pending => BacksSorted(ITEMS, file, items);
    case Remove(id) =>
      BacksLookup(ITEMS, file, items, id);
      BacksFilter(ITEMS, file, items, NotKeyed(ITEMS, id));
  }

  /** Every run of calls with valid items gets the same answers from the file as from memory. */
  lemma {:induction false} QueuesAgree(file: seq<QueuedIntercept>, items: seq<QueuedIntercept>, calls: seq<QueueCall>)
    requires Backs(ITEMS, file, items) && forall c | c in calls :: ValidQueueCall(c)
    ensures QueueAnswers(OnFile, file, calls) == QueueAnswers(InMemory, items, calls)
    decreases |calls|
  {
    hide OnQueue, Backs, ValidQueueCall;
    if calls != [] {
      QueueCallAgrees(file, items, calls[0]);
      QueuesAgree(OnQueue(OnFile, file, calls[0]).1, OnQueue(InMemory, items, calls[0]).1, calls[1..]);
    }
  }
}
