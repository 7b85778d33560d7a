/**
 What planning guarantees about the references it moves, and what follows for every sequence of
 setup runs, each planned from the stores the previous one left and each cut by a crash anywhere.
 */
module SetupPlanning {
  import opened Common
  import opened PrivateFiles
  import opened SetupTransaction
  import opened SetupSafety

  // ---------------------------------------------------------------- minting

  lemma SuffixUnique(a: string, b: string, s: string, t: string)
    requires a + s == b + t && |s| == |t|
    ensures s == t
  {
    assert s == (a + s)[|a|..];
    assert t == (b + t)[|b|..];
  }

  lemma MintInjective(
    installation: string, s: Slot, t: Slot, tokens: nat -> string, n: nat, j: nat, k: nat, known: set<CredentialRef>)
    requires FreshTokens(tokens, n, known) && j < n && k < n
    requires NewCredentialRef(installation, s, tokens(j)) == NewCredentialRef(installation, t, tokens(k))
    ensures j == k
  {
    SuffixUnique(
      installation + ":" + s.provider + ":" + s.role + ":",
      installation + ":" + t.provider + ":" + t.role + ":", tokens(j), tokens(k));
  }

  lemma MintUnknown(installation: string, slot: Slot, tokens: nat -> string, n: nat, k: nat, known: set<CredentialRef>)
    requires FreshTokens(tokens, n, known) && k < n
    ensures NewCredentialRef(installation, slot, tokens(k)) !in known
  {
    var ref := NewCredentialRef(installation, slot, tokens(k));
    var head := installation + ":" + slot.provider + ":" + slot.role + ":";
    assert ref.account == head + tokens(k);
    assert ref.account[|head|..] == tokens(k);
    assert EndsWith(ref.account, tokens(k));
  }

  // ---------------------------------------------------------------- one provider

  /** A minted slot keeps its place in the list as planning goes on. */
  lemma {:induction false} RolesExtend(
    draft: RoleDraft, item: ProviderIntent, roles: seq<string>, installation: string, tokens: nat -> string)
    ensures draft.minted <= DraftRoles(draft, item, roles, installation, tokens).minted
  {
    if roles != [] {
      RolesExtend(draft, item, roles[..|roles| - 1], installation, tokens);
    }
  }

  /** A role with a new secret ends with the reference of the slot minted for it. */
  lemma {:induction false} RoleMoved(
    draft: RoleDraft, item: ProviderIntent, roles: seq<string>, installation: string, tokens: nat -> string,
    role: string)
    returns (k: nat)
    requires role in roles && SecretOf(item.secrets, role).Some?
    ensures var done := DraftRoles(draft, item, roles, installation, tokens);
            && k < |done.minted| && done.minted[k] == Slot(item.providerId, role)
            && role in done.refs
               && done.refs[role] == NewCredentialRef(installation, Slot(item.providerId, role), tokens(k))
  {
    var front, last := roles[..|roles| - 1], roles[|roles| - 1];
    if last == role {
      k := |DraftRoles(draft, item, front, installation, tokens).minted|;
    } else {
      assert role in front;
      k := RoleMoved(draft, item, front, installation, tokens, role);
    }
  }

  /** A role without a new secret keeps the reference it had. */
  lemma {:induction false} RoleKept(
    draft: RoleDraft, item: ProviderIntent, roles: seq<string>, installation: string, tokens: nat -> string,
    role: string)
    requires role !in roles || SecretOf(item.secrets, role).None?
    ensures var done := DraftRoles(draft, item, roles, installation, tokens);
            (role in done.refs <==> role in draft.refs) && (role in draft.refs ==> done.refs[role] == draft.refs[role])
  {
    if roles != [] {
      RoleKept(draft, item, roles[..|roles| - 1], installation, tokens, role);
    }
  }

  /** A retired key is one that a role with a new secret was using. */
  lemma {:induction false} RoleRetired(
    draft: RoleDraft, item: ProviderIntent, roles: seq<string>, installation: string, tokens: nat -> string,
    ref: CredentialRef)
    requires NoDuplicates(roles)
    ensures ref in DraftRoles(draft, item, roles, installation, tokens).retired ==>
              || ref in draft.retired
              || exists role ::
                   role in roles && SecretOf(item.secrets, role).Some? && role in draft.refs && draft.refs[role] == ref
  {
    if roles != [] {
      var front, last := roles[..|roles| - 1], roles[|roles| - 1];
      RoleRetired(draft, item, front, installation, tokens, ref);
      assert last !in front;
      RoleKept(draft, item, front, installation, tokens, last);
    }
  }

  // ---------------------------------------------------------------- all providers

  /** The intent gives a new secret for this declared place. */
  ghost predicate Replaced(items: seq<ProviderIntent>, descriptors: Descriptors, slot: Slot)
    requires Described(items, descriptors)
  {
    exists i :: 0 <= i < |items| && ReplacedBy(items[i], descriptors, slot)
  }

  predicate ReplacedBy(item: ProviderIntent, descriptors: Descriptors, slot: Slot)
    requires item.providerId in descriptors
  {
    item.providerId == slot.provider && slot.role in descriptors[item.providerId]
      && SecretOf(item.secrets, slot.role).Some?
  }

  ghost predicate DistinctProviders(items: seq<ProviderIntent>) {
    forall i, j :: 0 <= i < j < |items| ==> items[i].providerId != items[j].providerId
  }

  function Mint(installation: string, draft: Draft, tokens: nat -> string, k: nat): CredentialRef
    requires k < |draft.minted|
  {
    NewCredentialRef(installation, draft.minted[k], tokens(k))
  }

  ghost predicate PreviousHas(previous: Option<ManagedConfig>, slot: Slot, ref: CredentialRef) {
    previous.Some? && HasSlot(previous.value, slot) && RefAt(previous.value, slot) == ref
  }

  lemma {:induction false} ProvidersListed(
    items: seq<ProviderIntent>, previous: Option<ManagedConfig>, descriptors: Descriptors, installation: string,
    tokens: nat -> string, provider: string)
    requires Described(items, descriptors)
    ensures provider in DraftItems(items, previous, descriptors, installation, tokens).providers <==>
            exists i :: 0 <= i < |items| && items[i].providerId == provider
  {
    if items != [] {
      ProvidersListed(items[..|items| - 1], previous, descriptors, installation, tokens, provider);
      assert items[|items| - 1].providerId == provider ==>
               exists i :: 0 <= i < |items| && items[i].providerId == provider;
    }
  }

  /**
   Every place of the planned configuration either moved to the slot minted for it, exactly when
   the intent gives it a new secret, or keeps the reference the previous configuration had there.
   */
  lemma {:induction false} PlannedSlot(
    items: seq<ProviderIntent>, previous: Option<ManagedConfig>, descriptors: Descriptors,
    installation: string, tokens: nat -> string, slot: Slot) returns (k: nat)
    requires Described(items, descriptors) && DistinctProviders(items)
    requires var draft := DraftItems(items, previous, descriptors, installation, tokens);
             slot.provider in draft.providers && slot.role in draft.providers[slot.provider].credentials
    ensures var draft := DraftItems(items, previous, descriptors, installation, tokens);
            var ref := draft.providers[slot.provider].credentials[slot.role];
            if Replaced(items, descriptors, slot)
            then k < |draft.minted| && draft.minted[k] == slot && ref == Mint(installation, draft, tokens, k)
            else PreviousHas(previous, slot, ref)
  {
    var front, item := items[..|items| - 1], items[|items| - 1];
    var before := DraftItems(front, previous, descriptors, installation, tokens);
    var start := RoleDraft(ExistingRefs(previous, item.providerId), before.minted, before.retired);
    var roles := descriptors[item.providerId];
    RolesExtend(start, item, roles, installation, tokens);
    if item.providerId == slot.provider {
      assert Replaced(items, descriptors, slot) ==> ReplacedBy(item, descriptors, slot);
      if ReplacedBy(item, descriptors, slot) {
        k := RoleMoved(start, item, roles, installation, tokens, slot.role);
      } else {
        RoleKept(start, item, roles, installation, tokens, slot.role);
        k := 0;
      }
    } else {
      assert Replaced(items, descriptors, slot) <==> Replaced(front, descriptors, slot) by {
        assert !ReplacedBy(item, descriptors, slot);
        if i :| 0 <= i < |items| && ReplacedBy(items[i], descriptors, slot) {
          assert ReplacedBy(front[i], descriptors, slot);
        }
      }
      k := PlannedSlot(front, previous, descriptors, installation, tokens, slot);
    }
  }

  /** A place with a new secret is in the planned configuration. */
  lemma {:induction false} ReplacedIsPlanned(
    items: seq<ProviderIntent>, previous: Option<ManagedConfig>, descriptors: Descriptors,
    installation: string, tokens: nat -> string, slot: Slot)
    requires Described(items, descriptors) && DistinctProviders(items) && Replaced(items, descriptors, slot)
    ensures var draft := DraftItems(items, previous, descriptors, installation, tokens);
            slot.provider in draft.providers && slot.role in draft.providers[slot.provider].credentials
  {
    var front, item := items[..|items| - 1], items[|items| - 1];
    var before := DraftItems(front, previous, descriptors, installation, tokens);
    if ReplacedBy(item, descriptors, slot) {
      var _ := RoleMoved(
        RoleDraft(ExistingRefs(previous, item.providerId), before.minted, before.retired),
        item, descriptors[item.providerId], installation, tokens, slot.role);
    } else {
      var i :| 0 <= i < |items| && ReplacedBy(items[i], descriptors, slot);
      assert ReplacedBy(front[i], descriptors, slot);
      ReplacedIsPlanned(front, previous, descriptors, installation, tokens, slot);
    }
  }

  /** Each retired key is the previous reference of a place that moved. */
  lemma {:induction false} RetiredMoved(
    items: seq<ProviderIntent>, previous: Option<ManagedConfig>, descriptors: Descriptors,
    installation: string, tokens: nat -> string, ref: CredentialRef) returns (slot: Slot)
    requires Described(items, descriptors)
    requires forall p :: p in descriptors ==> NoDuplicates(descriptors[p])
    requires ref in DraftItems(items, previous, descriptors, installation, tokens).retired
    ensures Replaced(items, descriptors, slot) && PreviousHas(previous, slot, ref)
  {
    var front, item := items[..|items| - 1], items[|items| - 1];
    var before := DraftItems(front, previous, descriptors, installation, tokens);
    if ref in before.retired {
      slot := RetiredMoved(front, previous, descriptors, installation, tokens, ref);
      var i :| 0 <= i < |front| && ReplacedBy(front[i], descriptors, slot);
      assert ReplacedBy(items[i], descriptors, slot);
    } else {
      var start := RoleDraft(ExistingRefs(previous, item.providerId), before.minted, before.retired);
      RoleRetired(start, item, descriptors[item.providerId], installation, tokens, ref);
      var role :| role in descriptors[item.providerId] && SecretOf(item.secrets, role).Some? && role in start.refs
        && start.refs[role] == ref;
      slot := Slot(item.providerId, role);
      assert ReplacedBy(items[|items| - 1], descriptors, slot);
    }
  }

  // ---------------------------------------------------------------- writes

  lemma {:induction false} ItemWriteOrigin(item: ProviderIntent, managed: ManagedProvider, n: nat, w: Write)
    requires n <= |item.secrets| && w in ItemWrites(item, managed, n)
    ensures w.slot.provider == item.providerId && w.slot.role in managed.credentials
    ensures w.ref == managed.credentials[w.slot.role] && SecretOf(item.secrets, w.slot.role).Some?
  {
    var entry := item.secrets[n - 1];
    if w in ItemWrites(item, managed, n - 1) {
      ItemWriteOrigin(item, managed, n - 1, w);
    } else {
      SecretOfEntry(item.secrets, n - 1);
    }
  }

  lemma {:induction false} SecretOfEntry(secrets: seq<SecretEntry>, i: nat)
    requires i < |secrets|
    ensures SecretOf(secrets, secrets[i].role).Some?
  {
    if i > 0 {
      SecretOfEntry(secrets[1..], i - 1);
    }
  }

  /** Each write goes to the planned reference of a place the intent gives a secret for. */
  lemma {:induction false} WriteOrigin(items: seq<ProviderIntent>, config: ManagedConfig, w: Write) returns (i: nat)
    requires Covers(config, items) && w in Writes(items, config)
    ensures i < |items| && items[i].providerId == w.slot.provider && SecretOf(items[i].secrets, w.slot.role).Some?
    ensures HasSlot(config, w.slot) && RefAt(config, w.slot) == w.ref
  {
    var item := items[|items| - 1];
    if w in Writes(items[..|items| - 1], config) {
      i := WriteOrigin(items[..|items| - 1], config, w);
    } else {
      ItemWriteOrigin(item, config.providers[item.providerId], |item.secrets|, w);
      i := |items| - 1;
    }
  }

  lemma {:induction false} ItemWriteMade(item: ProviderIntent, managed: ManagedProvider, n: nat, j: nat)
    requires j < n <= |item.secrets| && item.secrets[j].role in managed.credentials
    ensures exists w :: w in ItemWrites(item, managed, n) && w.ref == managed.credentials[item.secrets[j].role]
  {
    var entry := item.secrets[n - 1];
    if j < n - 1 {
      ItemWriteMade(item, managed, n - 1, j);
      var w :| w in ItemWrites(item, managed, n - 1) && w.ref == managed.credentials[item.secrets[j].role];
      assert w in ItemWrites(item, managed, n);
    } else {
      var w := Write(Slot(item.providerId, entry.role), managed.credentials[entry.role], entry.secret);
      assert w in ItemWrites(item, managed, n);
    }
  }

  lemma {:induction false} EntryOfSecret(secrets: seq<SecretEntry>, role: string) returns (j: nat)
    requires SecretOf(secrets, role).Some?
    ensures j < |secrets| && secrets[j].role == role
  {
    if secrets[0].role == role {
      j := 0;
    } else {
      j := EntryOfSecret(secrets[1..], role);
      j := j + 1;
    }
  }

  /** A place the intent gives a secret for is written. */
  lemma {:induction false} WriteMade(items: seq<ProviderIntent>, config: ManagedConfig, i: nat, role: string)
    requires Covers(config, items) && i < |items| && SecretOf(items[i].secrets, role).Some?
    requires HasSlot(config, Slot(items[i].providerId, role))
    ensures exists w :: w in Writes(items, config) && w.ref == RefAt(config, Slot(items[i].providerId, role))
  {
    var item := items[|items| - 1];
    var ref := RefAt(config, Slot(items[i].providerId, role));
    if i < |items| - 1 {
      WriteMade(items[..|items| - 1], config, i, role);
      var w :| w in Writes(items[..|items| - 1], config) && w.ref == ref;
      assert w in Writes(items, config);
    } else {
      var j := EntryOfSecret(item.secrets, role);
      ItemWriteMade(item, config.providers[item.providerId], |item.secrets|, j);
      var w :| w in ItemWrites(item, config.providers[item.providerId], |item.secrets|) && w.ref == ref;
      assert w in Writes(items, config);
    }
  }

  // ---------------------------------------------------------------- a plan is safe

  /** Each provider once, every secret for a role its provider declares, no role declared twice. */
  ghost predicate WellFormed(items: seq<ProviderIntent>, descriptors: Descriptors) {
    && Described(items, descriptors) && DistinctProviders(items)
    && (forall i, j :: 0 <= i < |items| && 0 <= j < |items[i].secrets| ==>
          items[i].secrets[j].role in descriptors[items[i].providerId])
    && (forall p :: p in descriptors ==> NoDuplicates(descriptors[p]))
  }

  /** What one run needs of the stores: the saved references resolve and no two share a key. */
  ghost predicate Sound(d: Durable) {
    Resolves(d) && (d.config.Some? ==> Unshared(d.config.value))
  }

  /** The random names this plan draws are fresh among the keys of the stores. */
  ghost predicate FreshNames(
    d: Durable, intent: SetupIntent, descriptors: Descriptors, newId: string, tokens: nat -> string)
    requires Described(intent.providers, descriptors)
  {
    FreshTokens(tokens, |PlanOf(intent, d.config, descriptors, newId, tokens).minted|, d.keyring.Keys)
  }

  lemma PreviousIsKnown(d: Durable, slot: Slot, ref: CredentialRef)
    requires Resolves(d) && PreviousHas(d.config, slot, ref)
    ensures ref in d.keyring && Present(d.keyring, ref)
  {
  }

  /** The facts about one planned place that the safety argument uses. */
  lemma PlannedPlace(
    d: Durable, intent: SetupIntent, descriptors: Descriptors, newId: string, tokens: nat -> string, slot: Slot)
    returns (k: nat)
    requires Sound(d) && WellFormed(intent.providers, descriptors) && FreshNames(d, intent, descriptors, newId, tokens)
    requires HasSlot(PlanOf(intent, d.config, descriptors, newId, tokens).config, slot)
    ensures var plan := PlanOf(intent, d.config, descriptors, newId, tokens);
            var ref := RefAt(plan.config, slot);
            if Replaced(intent.providers, descriptors, slot)
            then k < |plan.minted| && plan.minted[k] == slot && ref !in d.keyring
                 && ref == NewCredentialRef(InstallationOf(d.config, newId), slot, tokens(k))
            else PreviousHas(d.config, slot, ref) && ref in d.keyring && Present(d.keyring, ref)
  {
    var installation := InstallationOf(d.config, newId);
    k := PlannedSlot(intent.providers, d.config, descriptors, installation, tokens, slot);
    if Replaced(intent.providers, descriptors, slot) {
      MintUnknown(
        installation, slot, tokens, |PlanOf(intent, d.config, descriptors, newId, tokens).minted|, k, d.keyring.Keys);
    } else {
      PreviousIsKnown(d, slot, RefAt(PlanOf(intent, d.config, descriptors, newId, tokens).config, slot));
    }
  }

  lemma PlanUnshared(d: Durable, intent: SetupIntent, descriptors: Descriptors, newId: string, tokens: nat -> string)
    requires Sound(d) && WellFormed(intent.providers, descriptors) && FreshNames(d, intent, descriptors, newId, tokens)
    ensures Unshared(PlanOf(intent, d.config, descriptors, newId, tokens).config)
  {
    var config := PlanOf(intent, d.config, descriptors, newId, tokens).config;
    forall s, t | HasSlot(config, s) && HasSlot(config, t) && RefAt(config, s) == RefAt(config, t) ensures s == t {
      var j := PlannedPlace(d, intent, descriptors, newId, tokens, s);
      var k := PlannedPlace(d, intent, descriptors, newId, tokens, t);
      if Replaced(intent.providers, descriptors, s) && Replaced(intent.providers, descriptors, t) {
        MintInjective(
          InstallationOf(d.config, newId), s, t, tokens, |PlanOf(intent, d.config, descriptors, newId, tokens).minted|,
          j, k, d.keyring.Keys);
      }
    }
  }

  lemma PlanRetiresOnlyReplaced(
    d: Durable, intent: SetupIntent, descriptors: Descriptors, newId: string, tokens: nat -> string)
    requires Sound(d) && WellFormed(intent.providers, descriptors) && FreshNames(d, intent, descriptors, newId, tokens)
    ensures RetiresOnlyReplaced(PlanOf(intent, d.config, descriptors, newId, tokens))
  {
    var plan := PlanOf(intent, d.config, descriptors, newId, tokens);
    forall slot | HasSlot(plan.config, slot) ensures RefAt(plan.config, slot) !in plan.retired {
      if RefAt(plan.config, slot) in plan.retired {
        var k := PlannedPlace(d, intent, descriptors, newId, tokens, slot);
        var moved := RetiredMoved(
          intent.providers, d.config, descriptors, InstallationOf(d.config, newId), tokens, RefAt(plan.config, slot));
        PreviousIsKnown(d, moved, RefAt(plan.config, slot));
      }
    }
  }

  lemma PlanCovers(
    intent: SetupIntent, previous: Option<ManagedConfig>, descriptors: Descriptors, newId: string,
    tokens: nat -> string)
    requires Described(intent.providers, descriptors)
    ensures Covers(PlanOf(intent, previous, descriptors, newId, tokens).config, intent.providers)
  {
    forall i | 0 <= i < |intent.providers|
      ensures intent.providers[i].providerId in PlanOf(intent, previous, descriptors, newId, tokens).config.providers
    {
      ProvidersListed(
        intent.providers, previous, descriptors, InstallationOf(previous, newId), tokens,
        intent.providers[i].providerId);
    }
  }

  function WritesOf(intent: SetupIntent, plan: SetupPlan): seq<Write>
    requires Covers(plan.config, intent.providers)
  {
    Writes(intent.providers, plan.config)
  }

  lemma PlanWrites(
    d: Durable, intent: SetupIntent, descriptors: Descriptors, newId: string, tokens: nat -> string, w: Write)
    requires Sound(d) && WellFormed(intent.providers, descriptors) && FreshNames(d, intent, descriptors, newId, tokens)
    requires var plan := PlanOf(intent, d.config, descriptors, newId, tokens);
             Covers(plan.config, intent.providers) && w in WritesOf(intent, plan)
    ensures w.ref !in d.keyring
    ensures References(PlanOf(intent, d.config, descriptors, newId, tokens).config, w.ref)
  {
    var plan := PlanOf(intent, d.config, descriptors, newId, tokens);
    var i := WriteOrigin(intent.providers, plan.config, w);
    var j := EntryOfSecret(intent.providers[i].secrets, w.slot.role);
    assert ReplacedBy(intent.providers[i], descriptors, w.slot);
    var k := PlannedPlace(d, intent, descriptors, newId, tokens, w.slot);
  }

  /** Where a planned reference comes from, however the intent is formed: the saved place, or a stated secret. */
  lemma {:induction false} PlannedSource(
    items: seq<ProviderIntent>, previous: Option<ManagedConfig>, descriptors: Descriptors,
    installation: string, tokens: nat -> string, slot: Slot) returns (i: nat)
    requires Described(items, descriptors)
    requires var draft := DraftItems(items, previous, descriptors, installation, tokens);
             slot.provider in draft.providers && slot.role in draft.providers[slot.provider].credentials
    ensures var ref := DraftItems(items, previous, descriptors, installation,
              tokens).providers[slot.provider].credentials[slot.role];
            || PreviousHas(previous, slot, ref)
            || (i < |items| && items[i].providerId == slot.provider && SecretOf(items[i].secrets, slot.role).Some?)
  {
    var n := |items| - 1;
    var front, item := items[..n], items[n];
    var before := DraftItems(front, previous, descriptors, installation, tokens);
    i := n;
    if item.providerId != slot.provider {
      i := PlannedSource(front, previous, descriptors, installation, tokens, slot);
    } else if !ReplacedBy(item, descriptors, slot) {
      var start := RoleDraft(ExistingRefs(previous, item.providerId), before.minted, before.retired);
      RoleKept(start, item, descriptors[item.providerId], installation, tokens, slot.role);
    }
  }

  /** Every planned reference already resolves or is written by the run, for every intent of known providers. */
  lemma PlanSupplied(d: Durable, intent: SetupIntent, descriptors: Descriptors, newId: string, tokens: nat -> string)
    requires Resolves(d) && Described(intent.providers, descriptors)
    requires Covers(PlanOf(intent, d.config, descriptors, newId, tokens).config, intent.providers)
    ensures var plan := PlanOf(intent, d.config, descriptors, newId, tokens);
            Supplied(d, plan, WritesOf(intent, plan))
  {
    var plan := PlanOf(intent, d.config, descriptors, newId, tokens);
    var writes := WritesOf(intent, plan);
    forall slot | HasSlot(plan.config, slot)
      ensures Present(d.keyring, RefAt(plan.config, slot)) || RefAt(plan.config, slot) in RefsOf(writes)
    {
      var i := PlannedSource(
        intent.providers, d.config, descriptors, InstallationOf(d.config, newId), tokens, slot);
      if PreviousHas(d.config, slot, RefAt(plan.config, slot)) {
        PreviousIsKnown(d, slot, RefAt(plan.config, slot));
      } else {
        WriteMade(intent.providers, plan.config, i, slot.role);
        var w :| w in writes && w.ref == RefAt(plan.config, slot);
        var j :| 0 <= j < |writes| && writes[j] == w;
        assert RefsOf(writes)[j] == w.ref;
      }
    }
  }

  /**
   For every intent of known providers and every saved configuration that resolves: the planned run is
   safe under every early fault exactly when it writes no key in use and retires none still used, or
   stops at an empty secret.
   */
  lemma PlannedSafeIff(
    d: Durable, intent: SetupIntent, descriptors: Descriptors, newId: string, tokens: nat -> string, timer: TimerState)
    requires Resolves(d) && Described(intent.providers, descriptors)
    ensures var plan := PlanOf(intent, d.config, descriptors, newId, tokens);
            && Covers(plan.config, intent.providers)
            && var writes := WritesOf(intent, plan);
               SafeUnderEarlyFaults(d, plan, writes, intent.Work(), timer) <==>
               (exists i :: 0 <= i < |writes| && writes[i].secret == "")
               || (WritesAreFresh(d, writes) && RetiresOnlyReplaced(plan))
  {
    PlanCovers(intent, d.config, descriptors, newId, tokens);
    PlanSupplied(d, intent, descriptors, newId, tokens);
    var plan := PlanOf(intent, d.config, descriptors, newId, tokens);
    PlanSafeIff(d, plan, WritesOf(intent, plan), intent.Work(), timer);
  }

  /**
   Planning from sound stores, with each provider stated once, secrets only for declared roles and
   fresh random names, always gives a plan that meets the exact condition for safety, and a
   configuration in which again no two places share a key.
   */
  lemma PlanIsSafe(d: Durable, intent: SetupIntent, descriptors: Descriptors, newId: string, tokens: nat -> string)
    requires Sound(d) && WellFormed(intent.providers, descriptors) && FreshNames(d, intent, descriptors, newId, tokens)
    ensures var plan := PlanOf(intent, d.config, descriptors, newId, tokens);
            && Covers(plan.config, intent.providers) && Unshared(plan.config) && RetiresOnlyReplaced(plan)
            && var writes := WritesOf(intent, plan);
               Supplied(d, plan, writes) && WritesAreUsed(plan, writes) && WritesAreFresh(d, writes)
  {
    var plan := PlanOf(intent, d.config, descriptors, newId, tokens);
    PlanCovers(intent, d.config, descriptors, newId, tokens);
    PlanUnshared(d, intent, descriptors, newId, tokens);
    PlanRetiresOnlyReplaced(d, intent, descriptors, newId, tokens);
    PlanSupplied(d, intent, descriptors, newId, tokens);
    var writes := WritesOf(intent, plan);
    forall i | 0 <= i < |writes| ensures writes[i].ref !in d.keyring && References(plan.config, writes[i].ref) {
      PlanWrites(d, intent, descriptors, newId, tokens, writes[i]);
    }
  }

  // ---------------------------------------------------------------- any number of runs

  /** One plan-then-apply, cut after `stop` durable changes. */
  datatype Attempt = Attempt(
    intent: SetupIntent, descriptors: Descriptors, newId: string, tokens: nat -> string,
    faults: Faults, timer: TimerState, stop: nat)

  /** The durable changes of an attempt that starts from `d`. */
  function AttemptEvents(d: Durable, a: Attempt): seq<Event> {
    if !Described(a.intent.providers, a.descriptors) then []
    else
      var plan := PlanOf(a.intent, d.config, a.descriptors, a.newId, a.tokens);
      if Covers(plan.config, a.intent.providers)
      then RunEvents(d, plan, WritesOf(a.intent, plan), a.intent.Work(), a.faults, a.timer)
      else []
  }

  function Cut(d: Durable, events: seq<Event>, stop: nat): Durable {
    if events == [] || stop == 0 then d
    else events[if stop <= |events| then stop - 1 else |events| - 1].after
  }

  /** The keys an attempt that starts from `d` would write. */
  function AttemptWrites(d: Durable, a: Attempt): seq<Write> {
    if !Described(a.intent.providers, a.descriptors) then []
    else
      var plan := PlanOf(a.intent, d.config, a.descriptors, a.newId, a.tokens);
      if Covers(plan.config, a.intent.providers) then WritesOf(a.intent, plan) else []
  }

  /**
   The one way a well-planned attempt hurts: an error is reported although the new configuration is
   already in place, and a compensating deletion of one of its keys takes effect.
   */
  ghost predicate TakesBackCommitted(d: Durable, a: Attempt) {
    var writes := AttemptWrites(d, a);
    UndoesCommitted(writes, a.faults) && exists i :: 0 <= i < |writes| && At(a.faults.remove, i) != Refused
  }

  /** A well-formed intent and fresh random names. */
  ghost predicate WellPlanned(d: Durable, a: Attempt) {
    WellFormed(a.intent.providers, a.descriptors) && FreshNames(d, a.intent, a.descriptors, a.newId, a.tokens)
  }

  ghost predicate Admissible(d: Durable, a: Attempt) {
    WellPlanned(d, a) && !TakesBackCommitted(d, a)
  }

  /** Every configuration saved during a run is the one before it or the planned one. */
  lemma RunConfigs(
    d: Durable, plan: SetupPlan, writes: seq<Write>, work: ClientWork, faults: Faults, timer: TimerState, i: nat)
    requires i < |RunEvents(d, plan, writes, work, faults, timer)|
    ensures var config := RunEvents(d, plan, writes, work, faults, timer)[i].after.config;
            config == d.config || config == Some(plan.config)
  {
    var n := Attempted(writes, faults, 0);
    var stored := AfterPuts(d, writes, faults, n);
    var committed := Durable(stored.keyring, Some(plan.config));
    PutsKeepConfig(d, writes, faults, n);
    PutEventConfigs(d, writes, faults, n);
    DeleteEventConfigs(stored, RefsOf(writes), faults, |writes|);
    DeleteEventConfigs(committed, RefsOf(writes), faults, |writes|);
    DeleteEventConfigs(committed, plan.retired, faults, |plan.retired|);
    DeletesKeepConfig(committed, plan.retired, faults, |plan.retired|);
  }

  lemma {:induction false} PutEventConfigs(d: Durable, writes: seq<Write>, faults: Faults, n: nat)
    requires n <= |writes|
    ensures forall i :: 0 <= i < |PutEvents(d, writes, faults, n)| ==>
              PutEvents(d, writes, faults, n)[i].after.config == d.config
  {
    if n > 0 {
      PutEventConfigs(d, writes, faults, n - 1);
      PutsKeepConfig(d, writes, faults, n);
    }
  }

  lemma {:induction false} DeleteEventConfigs(d: Durable, refs: seq<CredentialRef>, faults: Faults, n: nat)
    requires n <= |refs|
    ensures forall i :: 0 <= i < |DeleteEvents(d, refs, faults, n)| ==>
              DeleteEvents(d, refs, faults, n)[i].after.config == d.config
  {
    if n > 0 {
      DeleteEventConfigs(d, refs, faults, n - 1);
      DeletesKeepConfig(d, refs, faults, n);
    }
  }

  lemma CutOfRun(
    d: Durable, plan: SetupPlan, writes: seq<Write>, work: ClientWork, faults: Faults, timer: TimerState, stop: nat)
    requires Sound(d) && Unshared(plan.config) && AllResolve(RunEvents(d, plan, writes, work, faults, timer))
    ensures Sound(Cut(d, RunEvents(d, plan, writes, work, faults, timer), stop))
  {
    var events := RunEvents(d, plan, writes, work, faults, timer);
    if events != [] && stop != 0 {
      var i := if stop <= |events| then stop - 1 else |events| - 1;
      RunConfigs(d, plan, writes, work, faults, timer, i);
      assert Resolves(events[i].after);
    }
  }

  lemma AttemptResolvesIff(d: Durable, a: Attempt)
    requires Sound(d) && WellPlanned(d, a)
    ensures AllResolve(AttemptEvents(d, a)) <==> !TakesBackCommitted(d, a)
  {
    PlanIsSafe(d, a.intent, a.descriptors, a.newId, a.tokens);
    var plan := PlanOf(a.intent, d.config, a.descriptors, a.newId, a.tokens);
    RunResolvesIff(d, plan, WritesOf(a.intent, plan), a.intent.Work(), a.faults, a.timer);
  }

  /** One attempt, cut anywhere, leaves sound stores sound. */
  lemma AttemptKeepsSound(d: Durable, a: Attempt)
    requires Sound(d) && Admissible(d, a)
    ensures Sound(Cut(d, AttemptEvents(d, a), a.stop))
  {
    PlanIsSafe(d, a.intent, a.descriptors, a.newId, a.tokens);
    AttemptResolvesIff(d, a);
    var plan := PlanOf(a.intent, d.config, a.descriptors, a.newId, a.tokens);
    CutOfRun(d, plan, WritesOf(a.intent, plan), a.intent.Work(), a.faults, a.timer, a.stop);
  }

  /**
   A well-planned attempt from sound stores leaves every saved reference resolving wherever it is
   cut exactly when it takes back no key of a configuration that is already in place.
   */
  lemma AttemptSoundIff(d: Durable, a: Attempt)
    requires Sound(d) && WellPlanned(d, a)
    ensures (forall stop :: Sound(Cut(d, AttemptEvents(d, a), stop))) <==> !TakesBackCommitted(d, a)
  {
    var events := AttemptEvents(d, a);
    if TakesBackCommitted(d, a) {
      DanglingStop(d, a);
      var stop :| !Resolves(Cut(d, events, stop));
    } else {
      forall stop ensures Sound(Cut(d, events, stop)) {
        AttemptKeepsSound(d, a.(stop := stop));
      }
    }
  }

  /** What a user may do, one at a time: set up, or disconnect the client. */
  datatype Operation =
    | SetUp(attempt: Attempt)
    | Disconnecting(removalFails: bool, commit: CommitResult, stop: nat)

  function OperationEvents(d: Durable, o: Operation): seq<Event> {
    match o
    case SetUp(a) => AttemptEvents(d, a)
    case Disconnecting(removalFails, commit, _) => DisconnectEvents(d, removalFails, commit)
  }

  function StopOf(o: Operation): nat {
    match o
    case SetUp(a) => a.stop
    case Disconnecting(_, _, stop) => stop
  }

  /** The stores after all the operations, each of them cut where it says. */
  function AfterOperations(d: Durable, operations: seq<Operation>): Durable {
    if operations == [] then d
    else
      var before := AfterOperations(d, operations[..|operations| - 1]);
      var last := operations[|operations| - 1];
      Cut(before, OperationEvents(before, last), StopOf(last))
  }

  ghost predicate AllAdmissible(d: Durable, operations: seq<Operation>) {
    operations != [] ==>
      && AllAdmissible(d, operations[..|operations| - 1])
      && var last := operations[|operations| - 1];
         (last.SetUp? ==> Admissible(AfterOperations(d, operations[..|operations| - 1]), last.attempt))
  }

  /** A disconnection keeps every reference, wherever it is cut. */
  lemma DisconnectKeepsSound(d: Durable, removalFails: bool, commit: CommitResult, stop: nat)
    requires Sound(d)
    ensures Sound(Cut(d, DisconnectEvents(d, removalFails, commit), stop))
  {
    if d.config.Some? {
      var after := Durable(d.keyring, Some(d.config.value.(client := None)));
      assert forall slot :: HasSlot(after.config.value, slot) ==>
        HasSlot(d.config.value, slot) && RefAt(after.config.value, slot) == RefAt(d.config.value, slot);
    }
  }

  /**
   Over any number of setups and disconnections, each setup planned from the stores it finds and with
   its own faults, and each operation cut by a crash after any durable change, every credential
   reference of the saved configuration resolves, as long as no setup takes back a key of a
   configuration that is already in place.
   */
  lemma {:induction false} ReferencesNeverDangle(d: Durable, operations: seq<Operation>)
    requires Sound(d) && AllAdmissible(d, operations)
    ensures Sound(AfterOperations(d, operations))
  {
    if operations != [] {
      var front, last := operations[..|operations| - 1], operations[|operations| - 1];
      ReferencesNeverDangle(d, front);
      match last {
        case SetUp(a) => AttemptKeepsSound(AfterOperations(d, front), a);
        case Disconnecting(removalFails, commit, stop) =>
          DisconnectKeepsSound(AfterOperations(d, front), removalFails, commit, stop);
      }
    }
  }

  // ---------------------------------------------------------------- the hypotheses are needed

  const OLD_KEY := CredentialRef("old")

  const KEY_ONLY: Descriptors := map["groq" := ["api_key"], "elevenlabs" := ["api_key"]]

  function Providing(roles: map<string, CredentialRef>): ManagedProvider {
    ManagedProvider(true, roles)
  }

  lemma DraftOne(
    item: ProviderIntent, previous: Option<ManagedConfig>, descriptors: Descriptors, installation: string,
    tokens: nat -> string)
    requires item.providerId in descriptors
    ensures DraftItems([item], previous, descriptors, installation, tokens)
         == DraftItem(Draft(map[], [], []), item, previous, descriptors[item.providerId], installation, tokens)
  {
    assert [item][..0] == [];
  }

  lemma DraftTwo(
    first: ProviderIntent, second: ProviderIntent, previous: Option<ManagedConfig>, descriptors: Descriptors,
    installation: string, tokens: nat -> string)
    requires first.providerId in descriptors && second.providerId in descriptors
    ensures DraftItems([first, second], previous, descriptors, installation, tokens)
         == DraftItem(
              DraftItem(Draft(map[], [], []), first, previous, descriptors[first.providerId], installation, tokens),
              second, previous, descriptors[second.providerId], installation, tokens)
  {
    assert [first, second][..1] == [first];
    DraftOne(first, previous, descriptors, installation, tokens);
  }

  lemma DraftKeyRole(draft: RoleDraft, item: ProviderIntent, installation: string, tokens: nat -> string)
    ensures DraftRoles(draft, item, ["api_key"], installation, tokens)
              == DraftRole(draft, item, "api_key", installation, tokens)
  {
    assert ["api_key"][..0] == [];
  }

  /** The plan puts `OLD_KEY` at `slot` of the new configuration, and retires it or not. */
  ghost predicate PlansOldKey(
    intent: SetupIntent, d: Durable, newId: string, tokens: nat -> string, slot: Slot, retires: bool)
  {
    && Described(intent.providers, KEY_ONLY)
    && var plan := PlanOf(intent, d.config, KEY_ONLY, newId, tokens);
       && Covers(plan.config, intent.providers)
       && HasSlot(plan.config, slot) && RefAt(plan.config, slot) == OLD_KEY && (retires ==> OLD_KEY in plan.retired)
  }

  ghost predicate Dangles(
    intent: SetupIntent, d: Durable, newId: string, tokens: nat -> string, faults: Faults, timer: TimerState)
  {
    && Described(intent.providers, KEY_ONLY)
    && var plan := PlanOf(intent, d.config, KEY_ONLY, newId, tokens);
       && Covers(plan.config, intent.providers)
       && !AllResolve(RunEvents(d, plan, WritesOf(intent, plan), intent.Work(), faults, timer))
  }

  /** Retiring a key that stays in place dangles with no fault at all. */
  lemma RetiredInPlaceDangles(
    intent: SetupIntent, d: Durable, newId: string, tokens: nat -> string, slot: Slot, timer: TimerState)
    requires PlansOldKey(intent, d, newId, tokens, slot, true) && NoEmptySecret(intent.providers)
    ensures Dangles(intent, d, newId, tokens, NOTHING_FAILS, timer)
  {
    var plan := PlanOf(intent, d.config, KEY_ONLY, newId, tokens);
    NonEmptySecrets(intent.providers, plan.config);
    RetireDangles(d, plan, WritesOf(intent, plan), intent.Work(), timer);
  }

  ghost predicate NoEmptySecret(items: seq<ProviderIntent>) {
    forall i, j :: 0 <= i < |items| && 0 <= j < |items[i].secrets| ==> items[i].secrets[j].secret != ""
  }

  lemma {:induction false} NonEmptySecrets(items: seq<ProviderIntent>, config: ManagedConfig)
    requires Covers(config, items) && NoEmptySecret(items)
    ensures forall k :: 0 <= k < |Writes(items, config)| ==> Writes(items, config)[k].secret != ""
  {
    if items != [] {
      var front, item := items[..|items| - 1], items[|items| - 1];
      NonEmptySecrets(front, config);
      NonEmptyItem(item, config.providers[item.providerId], |item.secrets|);
    }
  }

  lemma {:induction false} NonEmptyItem(item: ProviderIntent, managed: ManagedProvider, n: nat)
    requires n <= |item.secrets|
    requires forall j :: 0 <= j < |item.secrets| ==> item.secrets[j].secret != ""
    ensures forall k :: 0 <= k < |ItemWrites(item, managed, n)| ==> ItemWrites(item, managed, n)[k].secret != ""
  {
    if n > 0 {
      NonEmptyItem(item, managed, n - 1);
    }
  }

  const NEW_GROQ_KEY := ProviderIntent("groq", true, [SecretEntry("api_key", "new")])

  const GROQ_STORES := Durable(map[OLD_KEY := "key"],
    Some(ManagedConfig("id", map["groq" := Providing(map["api_key" := OLD_KEY])], false, None)))

  const REPEATED := SetupIntent([NEW_GROQ_KEY, ProviderIntent("groq", true, [])], false, None, NoClient)

  lemma RepeatedProviderPlan(newId: string, tokens: nat -> string)
    ensures PlansOldKey(REPEATED, GROQ_STORES, newId, tokens, Slot("groq", "api_key"), true)
  {
    DraftTwo(REPEATED.providers[0], REPEATED.providers[1], GROQ_STORES.config, KEY_ONLY, "id", tokens);
    var start := RoleDraft(map["api_key" := OLD_KEY], [], []);
    DraftKeyRole(start, NEW_GROQ_KEY, "id", tokens);
    var moved := DraftRole(start, NEW_GROQ_KEY, "api_key", "id", tokens);
    DraftKeyRole(RoleDraft(start.refs, moved.minted, moved.retired), REPEATED.providers[1], "id", tokens);
    PlanCovers(REPEATED, GROQ_STORES.config, KEY_ONLY, newId, tokens);
  }

  /**
   A provider stated twice, once with a new key and once without, retires the key that the second
   statement keeps: from sound stores and with no fault at all the saved reference dangles.
   */
  lemma RepeatedProviderDangles(newId: string, tokens: nat -> string, timer: TimerState)
    ensures Sound(GROQ_STORES)
    ensures Dangles(REPEATED, GROQ_STORES, newId, tokens, NOTHING_FAILS, timer)
  {
    RepeatedProviderPlan(newId, tokens);
    RetiredInPlaceDangles(REPEATED, GROQ_STORES, newId, tokens, Slot("groq", "api_key"), timer);
  }

  const SHARED_CONFIG := ManagedConfig(
    "id", map["groq" := Providing(map["api_key" := OLD_KEY]), "elevenlabs" := Providing(map["api_key" := OLD_KEY])],
      false, None)

  const SHARED_STORES := Durable(map[OLD_KEY := "key"], Some(SHARED_CONFIG))

  const REPLACE_ONE := SetupIntent([NEW_GROQ_KEY, ProviderIntent("elevenlabs", true, [])], false, None, NoClient)

  lemma SharedKeyPlan(newId: string, tokens: nat -> string)
    ensures PlansOldKey(REPLACE_ONE, SHARED_STORES, newId, tokens, Slot("elevenlabs", "api_key"), true)
  {
    DraftTwo(REPLACE_ONE.providers[0], REPLACE_ONE.providers[1], SHARED_STORES.config, KEY_ONLY, "id", tokens);
    var start := RoleDraft(map["api_key" := OLD_KEY], [], []);
    DraftKeyRole(start, NEW_GROQ_KEY, "id", tokens);
    var moved := DraftRole(start, NEW_GROQ_KEY, "api_key", "id", tokens);
    DraftKeyRole(RoleDraft(start.refs, moved.minted, moved.retired), REPLACE_ONE.providers[1], "id", tokens);
    PlanCovers(REPLACE_ONE, SHARED_STORES.config, KEY_ONLY, newId, tokens);
  }

  /** Two places sharing one key: replacing it in one place retires it under the other. */
  lemma SharedKeyDangles(newId: string, tokens: nat -> string, timer: TimerState)
    ensures WellFormed(REPLACE_ONE.providers, KEY_ONLY) && Resolves(SHARED_STORES)
    ensures Dangles(REPLACE_ONE, SHARED_STORES, newId, tokens, NOTHING_FAILS, timer)
  {
    SharedKeyPlan(newId, tokens);
    RetiredInPlaceDangles(REPLACE_ONE, SHARED_STORES, newId, tokens, Slot("elevenlabs", "api_key"), timer);
  }

  const LEGACY_STORES := Durable(map[OLD_KEY := "key"],
    Some(ManagedConfig("id", map["groq" := Providing(map["legacy" := OLD_KEY])], false, None)))

  const UNDECLARED := SetupIntent([ProviderIntent("groq", true, [SecretEntry("legacy", "new")])], false, None, NoClient)

  lemma UndeclaredRolePlan(newId: string, tokens: nat -> string)
    ensures PlansOldKey(UNDECLARED, LEGACY_STORES, newId, tokens, Slot("groq", "legacy"), false)
  {
    DraftOne(UNDECLARED.providers[0], LEGACY_STORES.config, KEY_ONLY, "id", tokens);
    DraftKeyRole(RoleDraft(map["legacy" := OLD_KEY], [], []), UNDECLARED.providers[0], "id", tokens);
    PlanCovers(UNDECLARED, LEGACY_STORES.config, KEY_ONLY, newId, tokens);
  }

  /** A secret under a role the provider does not declare overwrites the saved key in place. */
  lemma UndeclaredRoleDangles(newId: string, tokens: nat -> string, timer: TimerState)
    ensures Sound(LEGACY_STORES)
    ensures Dangles(UNDECLARED, LEGACY_STORES, newId, tokens, SWITCH_FAILS, timer)
  {
    var slot := Slot("groq", "legacy");
    UndeclaredRolePlan(newId, tokens);
    var plan := PlanOf(UNDECLARED, LEGACY_STORES.config, KEY_ONLY, newId, tokens);
    var writes := WritesOf(UNDECLARED, plan);
    NonEmptySecrets(UNDECLARED.providers, plan.config);
    WriteMade(UNDECLARED.providers, plan.config, 0, "legacy");
    var i :| 0 <= i < |writes| && writes[i].ref == OLD_KEY;
    assert HasSlot(LEGACY_STORES.config.value, slot) && RefAt(LEGACY_STORES.config.value, slot) == writes[i].ref;
    OverwriteDangles(LEGACY_STORES, plan, writes, NoClient, timer);
  }

  // ---------------------------------------------------------------- the late failure, at planned inputs

  const SAVE_FAILS_LATE := NOTHING_FAILS.(secondSave := false)

  const SYNC_FAILS_LATE := NOTHING_FAILS.(commit := FailedAfterReplace)

  /**
   Whatever the sound stores and the well-formed intent, if it brings a key then a journal that
   cannot be saved after the switch, or a directory that cannot be synced after the rename, leaves
   some reachable state in which a saved reference does not resolve.
   */
  lemma LateFailureDangles(d: Durable, a: Attempt)
    requires Sound(d) && WellPlanned(d, a) && NoEmptySecret(a.intent.providers) && AttemptWrites(d, a) != []
    requires a.faults == SAVE_FAILS_LATE || a.faults == SYNC_FAILS_LATE
    ensures exists stop :: !Resolves(Cut(d, AttemptEvents(d, a), stop))
  {
    LateFailureTakesBack(d, a);
    DanglingStop(d, a);
  }

  lemma LateFailureTakesBack(d: Durable, a: Attempt)
    requires Sound(d) && WellPlanned(d, a) && NoEmptySecret(a.intent.providers) && AttemptWrites(d, a) != []
    requires a.faults == SAVE_FAILS_LATE || a.faults == SYNC_FAILS_LATE
    ensures TakesBackCommitted(d, a)
  {
    var plan := PlanOf(a.intent, d.config, a.descriptors, a.newId, a.tokens);
    NonEmptySecrets(a.intent.providers, plan.config);
    assert At(a.faults.remove, 0) != Refused;
  }

  lemma DanglingStop(d: Durable, a: Attempt)
    requires Sound(d) && WellPlanned(d, a) && TakesBackCommitted(d, a)
    ensures exists stop :: !Resolves(Cut(d, AttemptEvents(d, a), stop))
  {
    AttemptResolvesIff(d, a);
    var events := AttemptEvents(d, a);
    var i :| 0 <= i < |events| && !Resolves(events[i].after);
    assert Cut(d, events, i + 1) == events[i].after;
  }

  const EMPTY_STORES := Durable(map[], None)

  const FIRST_KEY := SetupIntent([NEW_GROQ_KEY], false, None, NoClient)

  lemma FirstKeyPlan(newId: string, tokens: nat -> string)
    ensures PlanOf(FIRST_KEY, None, KEY_ONLY, newId, tokens)
         == SetupPlan(ManagedConfig(newId,
           map["groq" := Providing(map["api_key" := NewCredentialRef(newId, Slot("groq", "api_key"), tokens(0))])],
             false, None),
                      [], [Slot("groq", "api_key")])
  {
    DraftOne(NEW_GROQ_KEY, None, KEY_ONLY, newId, tokens);
    DraftKeyRole(RoleDraft(map[], [], []), NEW_GROQ_KEY, newId, tokens);
  }

  /** The very first setup of an installation is such a case. */
  lemma FirstSetupCanDangle(newId: string, tokens: nat -> string, timer: TimerState)
    requires |tokens(0)| == TOKEN_LENGTH
    ensures var a := Attempt(FIRST_KEY, KEY_ONLY, newId, tokens, SAVE_FAILS_LATE, timer, 0);
            Sound(EMPTY_STORES) && WellPlanned(EMPTY_STORES, a) && exists stop ::
              !Resolves(Cut(EMPTY_STORES, AttemptEvents(EMPTY_STORES, a), stop))
  {
    var a := Attempt(FIRST_KEY, KEY_ONLY, newId, tokens, SAVE_FAILS_LATE, timer, 0);
    var plan := PlanOf(FIRST_KEY, None, KEY_ONLY, newId, tokens);
    FirstKeyPlan(newId, tokens);
    assert |plan.minted| == 1;
    PlanCovers(FIRST_KEY, None, KEY_ONLY, newId, tokens);
    WriteMade(FIRST_KEY.providers, plan.config, 0, "api_key");
    LateFailureDangles(EMPTY_STORES, a);
  }
}
