/** The LLM client registry: every client that can reach a provider follows the parent config. */
module LlmRegistry {
  import opened Names

  datatype Tier = Tier(
    enabled: bool, endpoint: string, apiKey: string, model: string,
    timeoutSeconds: int, tokenBudgetDaily: int, cooldownSeconds: int)

  datatype LlmConfig = LlmConfig(
    auth: string, general: Tier, jsonMode: bool, tokenParameter: string,
    toolReasoningEffort: string, optimizer: Tier)

  const ZeroTier := Tier(false, "", "", "", 0, 0, 0)

  datatype Role = General | Optimizer

  type Client = nat

  datatype Entry = Entry(client: Client, role: Role, database: string, allowed: bool)

  function FirstNonEmpty(a: string, b: string): string {
    if a != "" then a else b
  }

  function FirstPositive(a: int, b: int): int {
    if a > 0 then a else if b > 0 then b else 0
  }

  function TrimSlashes(s: string): (t: string)
    ensures t <= s && forall i :: |t| <= i < |s| ==> s[i] == '/'
    ensures t == "" || t[|t| - 1] != '/'
  {
    if s != "" && s[|s| - 1] == '/' then TrimSlashes(s[..|s| - 1]) else s
  }

  function OptimizerAuth(parent: LlmConfig, appMode: bool): string {
    if appMode && parent.auth == "databricks" && parent.general.apiKey == ""
       && parent.optimizer.apiKey == "" then "databricks"
    else if parent.optimizer.apiKey != "" || (parent.optimizer.endpoint != ""
            && TrimSlashes(parent.optimizer.endpoint) != TrimSlashes(parent.general.endpoint))
    then "api_key"
    else parent.auth
  }

  /** optimizerLLMConfig: the tier's own settings win, empty ones inherit, and the tier is never
      on while the parent is off. */
  function OptimizerConfig(parent: LlmConfig, appMode: bool): LlmConfig {
    var opt, gen := parent.optimizer, parent.general;
    LlmConfig(
      OptimizerAuth(parent, appMode),
      Tier(opt.enabled && gen.enabled, FirstNonEmpty(opt.endpoint, gen.endpoint),
           FirstNonEmpty(opt.apiKey, gen.apiKey), FirstNonEmpty(opt.model, gen.model),
           FirstPositive(opt.timeoutSeconds, gen.timeoutSeconds),
           FirstPositive(opt.tokenBudgetDaily, gen.tokenBudgetDaily),
           FirstPositive(opt.cooldownSeconds, gen.cooldownSeconds)),
      parent.jsonMode, parent.tokenParameter, parent.toolReasoningEffort, ZeroTier)
  }

  function Derived(parent: LlmConfig, role: Role, allowed: bool, appMode: bool): LlmConfig {
    var derived := if role == Optimizer then OptimizerConfig(parent, appMode) else parent;
    if allowed then derived else derived.(general := derived.general.(enabled := false))
  }

  /** A setting of the optimizer tier, or the general one where it has none. */
  predicate OwnOrGeneral(own: string, general: string, r: string) {
    (own != "" ==> r == own) && (own == "" ==> r == general)
  }

  /** The same for a number, of which only a positive one counts. */
  predicate OwnOrPositive(own: int, general: int, r: int) {
    (own > 0 ==> r == own) && (own <= 0 && general > 0 ==> r == general) && (own <= 0 && general <= 0 ==> r == 0)
  }

  /** How the optimizer tier signs in: with the platform in app mode where nobody has a key; with a key
      where it has one of its own or talks to another endpoint, a trailing slash aside; otherwise as
      the parent does. */
  predicate SignsIn(parent: LlmConfig, appMode: bool, auth: string) {
    var own, general := parent.optimizer, parent.general;
    var platform := appMode && parent.auth == "databricks" && own.apiKey == "" && general.apiKey == "";
    var apart := own.endpoint != "" && TrimSlashes(own.endpoint) != TrimSlashes(general.endpoint);
    && (platform ==> auth == "databricks")
    && (!platform && (own.apiKey != "" || apart) ==> auth == "api_key")
    && (!platform && own.apiKey == "" && !apart ==> auth == parent.auth)
  }

  /** What a client runs, setting by setting: the parent or its optimizer tier, on only if it is allowed
      and everything above it is on. */
  predicate Runs(parent: LlmConfig, role: Role, allowed: bool, appMode: bool, r: LlmConfig) {
    var own, general, t := parent.optimizer, parent.general, r.general;
    && r.jsonMode == parent.jsonMode && r.tokenParameter == parent.tokenParameter
    && r.toolReasoningEffort == parent.toolReasoningEffort
    && (role == General ==>
          && r.auth == parent.auth && r.optimizer == own && (t.enabled <==> allowed && general.enabled)
          && t.endpoint == general.endpoint && t.apiKey == general.apiKey && t.model == general.model
          && t.timeoutSeconds == general.timeoutSeconds && t.tokenBudgetDaily == general.tokenBudgetDaily
          && t.cooldownSeconds == general.cooldownSeconds)
    && (role == Optimizer ==>
          && SignsIn(parent, appMode, r.auth) && r.optimizer == Tier(false, "", "", "", 0, 0, 0)
          && (t.enabled <==> allowed && own.enabled && general.enabled)
          && OwnOrGeneral(own.endpoint, general.endpoint, t.endpoint)
          && OwnOrGeneral(own.apiKey, general.apiKey, t.apiKey) && OwnOrGeneral(own.model, general.model, t.model)
          && OwnOrPositive(own.timeoutSeconds, general.timeoutSeconds, t.timeoutSeconds)
          && OwnOrPositive(own.tokenBudgetDaily, general.tokenBudgetDaily, t.tokenBudgetDaily)
          && OwnOrPositive(own.cooldownSeconds, general.cooldownSeconds, t.cooldownSeconds))
  }

  /** The derivation is exactly that. */
  lemma DerivedRuns(parent: LlmConfig, role: Role, allowed: bool, appMode: bool, r: LlmConfig)
    ensures r == Derived(parent, role, allowed, appMode) <==> Runs(parent, role, allowed, appMode, r)
  {
  }

  /** The entry that decides a client's config: the last one that tracks it. */
  function Governing(entries: seq<Entry>, c: Client): Option<Entry> {
    if entries == [] then None
    else if entries[|entries| - 1].client == c then Some(entries[|entries| - 1])
    else Governing(entries[..|entries| - 1], c)
  }

  lemma GoverningAppend(entries: seq<Entry>, e: Entry, c: Client)
    ensures Governing(entries + [e], c) == if e.client == c then Some(e) else Governing(entries, c)
  {
    assert (entries + [e])[..|entries|] == entries;
  }

  /** The entries of a list whose client is not dropped, in order. */
  function Kept(entries: seq<Entry>, drop: set<Client>): seq<Entry> {
    if entries == [] then []
    else
      var rest := Kept(entries[..|entries| - 1], drop);
      var e := entries[|entries| - 1];
      if e.client in drop then rest else rest + [e]
  }

  lemma {:induction false} KeptAreEntries(entries: seq<Entry>, drop: set<Client>)
    ensures forall i :: 0 <= i < |Kept(entries, drop)| ==> Kept(entries, drop)[i] in entries
  {
    if entries != [] {
      var n := |entries| - 1;
      KeptAreEntries(entries[..n], drop);
      assert entries == entries[..n] + [entries[n]];
    }
  }

  lemma {:induction false} GoverningKept(entries: seq<Entry>, drop: set<Client>, c: Client)
    ensures Governing(Kept(entries, drop), c) == if c in drop then None else Governing(entries, c)
  {
    if entries != [] {
      var n := |entries| - 1;
      GoverningKept(entries[..n], drop, c);
      if entries[n].client !in drop {
        GoverningAppend(Kept(entries[..n], drop), entries[n], c);
      }
    }
  }

  /** Every tracked client runs the derivation of the parent for its role and permission. */
  ghost predicate Synced(
    entries: seq<Entry>, configs: map<Client, LlmConfig>, parent: LlmConfig, appMode: bool)
  {
    forall c: Client :: ClientSynced(entries, configs, parent, appMode, c)
  }

  predicate ClientSynced(
    entries: seq<Entry>, configs: map<Client, LlmConfig>, parent: LlmConfig, appMode: bool, c: Client)
  {
    match Governing(entries, c)
    case None => true
    case Some(e) => c in configs && configs[c] == Derived(parent, e.role, e.allowed, appMode)
  }

  /** Once synced: a client that is not allowed is off, a parent that is off turns every client
      off, the optimizer tier included, and a general client that is allowed runs the parent
      config itself. */
  lemma SyncedSwitches(
    entries: seq<Entry>, configs: map<Client, LlmConfig>, parent: LlmConfig, appMode: bool, c: Client)
    requires Synced(entries, configs, parent, appMode) && Governing(entries, c).Some?
    ensures var e := Governing(entries, c).value;
      && c in configs
      && (!e.allowed ==> !configs[c].general.enabled)
      && (!parent.general.enabled ==> !configs[c].general.enabled)
      && (e.allowed && e.role == General ==> configs[c] == parent)
      && (configs[c].general.enabled <==>
            e.allowed && parent.general.enabled && (e.role == Optimizer ==> parent.optimizer.enabled))
  {
    assert ClientSynced(entries, configs, parent, appMode, c);
  }

  /** Once synced every tracked client runs, setting by setting, what its role and permission say. */
  lemma SyncedSettings(
    entries: seq<Entry>, configs: map<Client, LlmConfig>, parent: LlmConfig, appMode: bool, c: Client)
    requires Synced(entries, configs, parent, appMode) && Governing(entries, c).Some?
    ensures var e := Governing(entries, c).value;
      c in configs && Runs(parent, e.role, e.allowed, appMode, configs[c])
  {
    assert ClientSynced(entries, configs, parent, appMode, c);
    var e := Governing(entries, c).value;
    DerivedRuns(parent, e.role, e.allowed, appMode, configs[c]);
  }

  lemma SyncedKept(
    entries: seq<Entry>, configs: map<Client, LlmConfig>, parent: LlmConfig, appMode: bool, drop: set<Client>)
    requires Synced(entries, configs, parent, appMode)
    ensures Synced(Kept(entries, drop), configs, parent, appMode)
  {
    forall c: Client
      ensures ClientSynced(Kept(entries, drop), configs, parent, appMode, c)
    {
      GoverningKept(entries, drop, c);
      assert ClientSynced(entries, configs, parent, appMode, c);
    }
  }

  // ----- the registry, mutated under its mutex

  class Registry {
    var entries: array<Entry>
    var len: nat
    var parent: LlmConfig
    var bound: bool
    /** The live clients and the config each one runs. */
    var configs: map<Client, LlmConfig>
    var nextClient: Client
    const appMode: bool

    ghost predicate Valid()
      reads this, entries
    {
      && len <= entries.Length
      && (forall c :: c in configs ==> c < nextClient)
      && (forall i :: 0 <= i < len ==> entries[i].client in configs)
    }

    ghost function Entries(): seq<Entry>
      reads this, entries
      requires len <= entries.Length
    {
      entries[..len]
    }

    ghost predicate InSync()
      reads this, entries
    {
      Valid() && bound && Synced(Entries(), configs, parent, appMode)
    }

    /** The registry as a value. */
    ghost function Snapshot(): State
      reads this, entries
      requires len <= entries.Length
    {
      State(Entries(), configs, parent, nextClient)
    }

    constructor (parent: LlmConfig, appMode: bool)
      ensures Valid() && !bound && Entries() == [] && fresh(entries) && this.parent == parent
    {
      this.parent, this.appMode, bound, configs, nextClient, len := parent, appMode, false, map[], 0, 0;
      entries := new Entry[4](_ => Entry(0, General, "", false));
    }

    /** bind: the registry now decides the parent and forgets earlier clients. */
    method Bind(parent: LlmConfig)
      requires Valid()
      modifies this`bound, this`parent, this`len
      ensures InSync() && Entries() == [] && this.parent == parent
    {
      bound, this.parent, len := true, parent, 0;
    }

    method Append(e: Entry)
      requires Valid() && e.client in configs
      modifies this`entries, this`len, entries
      ensures Valid() && Entries() == old(Entries()) + [e]
      ensures entries == old(entries) || fresh(entries)
    {
      if len == entries.Length {
        var bigger := new Entry[2 * entries.Length + 1](_ => e);
        for i := 0 to len
          invariant entries == old(entries) && len == old(len) && entries[..] == old(entries[..])
          invariant bigger[..i] == entries[..i]
        {
          bigger[i] := entries[i];
        }
        entries := bigger;
      }
      entries[len] := e;
      len := len + 1;
    }

    /** newClient: built from the current parent (the process config until the registry is bound)
        and tracked. */
    method NewClient(role: Role, database: string, allowed: bool, process: LlmConfig) returns (c: Client)
      requires Valid()
      modifies this, entries
      ensures Valid() && bound == old(bound) && parent == old(parent)
      ensures entries == old(entries) || fresh(entries)
      ensures c !in old(configs) && c == old(nextClient) && nextClient == c + 1
      ensures bound ==> Snapshot() == Step(old(Snapshot()), New(role, database, allowed), appMode)
      ensures configs == old(configs)[c := Derived(if bound then parent else process, role, allowed, appMode)]
      ensures Entries() == old(Entries()) + [Entry(c, role, database, allowed)]
      ensures old(InSync()) ==> InSync()
    {
      c := nextClient;
      configs := configs[c := Derived(if bound then parent else process, role, allowed, appMode)];
      nextClient := nextClient + 1;
      Append(Entry(c, role, database, allowed));
      ghost var before, was := old(Entries()), old(configs);
      if old(InSync()) {
        forall d: Client
          ensures ClientSynced(Entries(), configs, parent, appMode, d)
        {
          GoverningAppend(before, Entry(c, role, database, allowed), d);
          assert ClientSynced(before, was, parent, appMode, d);
        }
      }
    }

    /** In-place compaction of the list; the entries that stay keep their order. */
    method Compact(drop: set<Client>)
      requires Valid()
      modifies this`len, entries
      ensures Valid() && Entries() == Kept(old(Entries()), drop)
    {
      var k := 0;
      ghost var all := Entries();
      for i := 0 to len
        invariant 0 <= k <= i && len == old(len)
        invariant entries[..k] == Kept(all[..i], drop)
        invariant forall j :: i <= j < len ==> entries[j] == all[j]
      {
        assert all[..i + 1][..i] == all[..i];
        assert entries[i] == all[i];
        if entries[i].client !in drop {
          entries[k] := entries[i];
          k := k + 1;
          assert entries[..k] == entries[..k - 1] + [all[i]];
        }
      }
      assert all[..len] == all;
      KeptAreEntries(all, drop);
      len := k;
      forall j | 0 <= j < k
        ensures entries[j].client in configs
      {
        assert Entries()[j] in all;
      }
    }

    /** remove: exactly the undropped entries stay, in order and in sync. */
    method Remove(drop: set<Client>)
      requires Valid()
      modifies this`len, entries
      ensures Valid() && Entries() == Kept(old(Entries()), drop)
      ensures Snapshot() == Step(old(Snapshot()), Drop(drop), appMode)
      ensures old(InSync()) ==> InSync()
    {
      ghost var all := Entries();
      Compact(drop);
      if Synced(all, configs, parent, appMode) {
        SyncedKept(all, configs, parent, appMode, drop);
      }
    }

    /** reconfigure: Commit and Rollback fan a parent out to every tracked client. */
    method Reconfigure(parent: LlmConfig)
      requires Valid()
      modifies this`parent, this`configs
      ensures Valid() && this.parent == parent
      ensures Synced(Entries(), configs, parent, appMode)
      ensures configs == FanOut(Entries(), old(configs), parent, appMode)
      ensures Snapshot() == Step(old(Snapshot()), Fan(parent), appMode)
    {
      this.parent := parent;
      ghost var all := Entries();
      for i := 0 to len
        invariant configs.Keys == old(configs).Keys && this.parent == parent
        invariant Synced(all[..i], configs, parent, appMode)
        invariant forall c :: c in configs && Governing(all[..i], c).None? ==> configs[c] == old(configs)[c]
      {
        var e := entries[i];
        assert all[..i + 1] == all[..i] + [e];
        ghost var before := configs;
        configs := configs[e.client := Derived(parent, e.role, e.allowed, appMode)];
        forall c: Client
          ensures ClientSynced(all[..i + 1], configs, parent, appMode, c)
          ensures c in configs && Governing(all[..i + 1], c).None? ==> configs[c] == old(configs)[c]
        {
          GoverningAppend(all[..i], e, c);
          assert ClientSynced(all[..i], before, parent, appMode, c);
        }
      }
      assert all[..len] == all;
      forall c | c in configs
        ensures configs[c] == FanOut(all, old(configs), parent, appMode)[c]
      {
        assert ClientSynced(all, configs, parent, appMode, c);
      }
    }

    /** The registry's methods, called in any order, take it through the runs of the model. */
    method Perform(ops: seq<Op>, process: LlmConfig)
      requires Valid() && bound
      modifies this, entries
      ensures Valid() && bound && (entries == old(entries) || fresh(entries))
      ensures Snapshot() == Run(old(Snapshot()), ops, appMode)
    {
      for i := 0 to |ops|
        invariant Valid() && bound && (entries == old(entries) || fresh(entries))
        invariant Run(Snapshot(), ops[i..], appMode) == Run(old(Snapshot()), ops, appMode)
      {
        assert ops[i..][0] == ops[i] && ops[i..][1..] == ops[i + 1..];
        match ops[i] {
          case New(role, database, allowed) => var _ := NewClient(role, database, allowed, process);
          case Drop(clients) => Remove(clients);
          case Fan(parent) => Reconfigure(parent);
        }
      }
      assert ops[|ops|..] == [];
    }

    /** add: a client built elsewhere is tracked as it is. */
    method Add(c: Client, role: Role, database: string, allowed: bool)
      requires Valid() && c in configs
      modifies this`entries, this`len, entries
      ensures Valid() && Entries() == old(Entries()) + [Entry(c, role, database, allowed)]
      ensures entries == old(entries) || fresh(entries)
    {
      Append(Entry(c, role, database, allowed));
    }
  }

  /** A client built elsewhere joins in sync exactly when it already runs the derivation. */
  lemma AddedInSync(
    entries: seq<Entry>, configs: map<Client, LlmConfig>, parent: LlmConfig, appMode: bool, e: Entry)
    requires Synced(entries, configs, parent, appMode) && e.client in configs
    ensures Synced(entries + [e], configs, parent, appMode) <==>
      configs[e.client] == Derived(parent, e.role, e.allowed, appMode)
  {
    forall c: Client
      ensures ClientSynced(entries + [e], configs, parent, appMode, c) <==>
        (c == e.client ==> configs[c] == Derived(parent, e.role, e.allowed, appMode))
    {
      GoverningAppend(entries, e, c);
      assert ClientSynced(entries, configs, parent, appMode, c);
    }
    assert Synced(entries + [e], configs, parent, appMode) ==>
      ClientSynced(entries + [e], configs, parent, appMode, e.client);
  }

  // ----- every interleaving

  datatype Op = New(role: Role, database: string, allowed: bool) | Drop(clients: set<Client>) | Fan(parent: LlmConfig)

  datatype State = State(entries: seq<Entry>, configs: map<Client, LlmConfig>, parent: LlmConfig, next: Client)

  function FanOut(entries: seq<Entry>, configs: map<Client, LlmConfig>, parent: LlmConfig, appMode: bool)
    : map<Client, LlmConfig>
  {
    map c | c in configs ::
      match Governing(entries, c)
      case None => configs[c]
      case Some(e) => Derived(parent, e.role, e.allowed, appMode)
  }

  function Step(s: State, op: Op, appMode: bool): State {
    match op
    case New(role, database, allowed) =>
      State(s.entries + [Entry(s.next, role, database, allowed)],
            s.configs[s.next := Derived(s.parent, role, allowed, appMode)], s.parent, s.next + 1)
    case Drop(clients) => s.(entries := Kept(s.entries, clients))
    case Fan(parent) => s.(configs := FanOut(s.entries, s.configs, parent, appMode), parent := parent)
  }

  function Run(s: State, ops: seq<Op>, appMode: bool): State
    decreases ops
  {
    if ops == [] then s else Run(Step(s, ops[0], appMode), ops[1..], appMode)
  }

  ghost predicate Consistent(s: State, appMode: bool) {
    && Synced(s.entries, s.configs, s.parent, appMode)
    && forall c: Client :: Governing(s.entries, c).Some? ==> c in s.configs && c < s.next
  }

  lemma StepConsistent(s: State, op: Op, appMode: bool)
    requires Consistent(s, appMode)
    ensures Consistent(Step(s, op, appMode), appMode)
  {
    var t := Step(s, op, appMode);
    forall c: Client
      ensures ClientSynced(t.entries, t.configs, t.parent, appMode, c)
      ensures Governing(t.entries, c).Some? ==> c in t.configs && c < t.next
    {
      assert ClientSynced(s.entries, s.configs, s.parent, appMode, c);
      match op
      case New(role, database, allowed) =>
        GoverningAppend(s.entries, Entry(s.next, role, database, allowed), c);
      case Drop(clients) => GoverningKept(s.entries, clients, c);
      case Fan(parent) =>
    }
  }

  /** Whatever clients are made, released and reconfigured, in any order, every tracked client runs
      the derivation of the parent of that moment. */
  lemma {:induction false} RunConsistent(s: State, ops: seq<Op>, appMode: bool)
    requires Consistent(s, appMode)
    ensures Consistent(Run(s, ops, appMode), appMode)
    decreases ops
  {
    if ops != [] {
      StepConsistent(s, ops[0], appMode);
      RunConsistent(Step(s, ops[0], appMode), ops[1..], appMode);
    }
  }

  /** A change committed and rolled back, with clients coming and going meanwhile, leaves every
      client that was tracked all along with the config it started with. */
  lemma RollbackRestoresClients(s: State, next: LlmConfig, meanwhile: seq<Op>, appMode: bool, c: Client)
    requires Consistent(s, appMode)
    requires var t := Run(Step(s, Fan(next), appMode), meanwhile, appMode);
      Governing(s.entries, c).Some? && Governing(t.entries, c) == Governing(s.entries, c)
    ensures var back := Step(Run(Step(s, Fan(next), appMode), meanwhile, appMode), Fan(s.parent), appMode);
      && c in s.configs && c in back.configs
      && back.configs[c] == s.configs[c]
      && back.parent == s.parent
  {
    var t := Run(Step(s, Fan(next), appMode), meanwhile, appMode);
    StepConsistent(s, Fan(next), appMode);
    RunConsistent(Step(s, Fan(next), appMode), meanwhile, appMode);
    StepConsistent(t, Fan(s.parent), appMode);
    assert ClientSynced(s.entries, s.configs, s.parent, appMode, c);
    var back := Step(t, Fan(s.parent), appMode);
    assert ClientSynced(back.entries, back.configs, back.parent, appMode, c);
  }
}
