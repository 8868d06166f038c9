/** The account document (backend/models/User.js): the credit ledger, the walk up the
    referral chain, referral-code generation in the pre-save hook and the purchase gate.
    The users collection is an `AccountStore`, a map from ids to account records. */
module Accounts {
  import opened Common

  /** The deepest referral level an account may have, and the most hops the chain walk takes. */
  const MaxReferralLevel := 12
  /** How many random referral codes the pre-save hook draws before giving up. */
  const ReferralCodeAttempts := 10

  datatype Role = User | Admin {
    function Name(): string {
      match this
      case User => "user"
      case Admin => "admin"
    }
  }

  /** The role named by a request string, if it is one of the schema's two roles. */
  function ParseRole(s: string): (r: Option<Role>)
    ensures r.Some? ==> r.value.Name() == s
    ensures r.None? ==> forall role: Role :: role.Name() != s
  {
    if s == "user" then Some(User) else if s == "admin" then Some(Admin) else None
  }

  datatype Address = Address(
    id: Id,
    line1: string,
    line2: Option<string>,
    city: string,
    state: string,
    pincode: string,
    country: string,
    isDefault: bool)

  datatype WishlistEntry = WishlistEntry(
    productId: Id,
    name: Option<string>,
    price: Option<int>,
    image: Option<string>)

  /** A stored account. Amounts are integers in minor units. */
  datatype Account = Account(
    email: string,
    pointsBalance: int,
    parentId: Option<Id>,
    role: Role,
    referralCode: Option<string>,
    nextPurchaseDate: Option<int>,
    referralLevel: int,
    totalReferrals: int,
    addresses: seq<Address>,
    wishlist: seq<WishlistEntry>)

  /** The schema's numeric bounds, checked by every save: a balance of at least 0, a level of at most 12. */
  predicate SchemaOk(a: Account) {
    a.pointsBalance >= 0 && a.referralLevel <= MaxReferralLevel
  }

  /** An account's level is one more than its parent's, whenever the parent is still stored. */
  ghost predicate LevelsLinked(accounts: map<Id, Account>) {
    forall id | id in accounts && accounts[id].parentId.Some? && accounts[id].parentId.value in accounts ::
      accounts[accounts[id].parentId.value].referralLevel + 1 == accounts[id].referralLevel
  }

  /** The referral codes in use, as `findOne({ referral_code })` sees them. */
  function UsedCodes(accounts: map<Id, Account>): set<string> {
    set id | id in accounts && accounts[id].referralCode.Some? :: accounts[id].referralCode.value
  }

  /** The e-mail addresses in use. */
  function UsedEmails(accounts: map<Id, Account>): set<string> {
    set id | id in accounts :: accounts[id].email
  }

  /** The store's invariant: every record passed its save validation and the pre-save hook gave it
      a referral code, levels follow parent links, and the unique indexes on e-mail and code hold. */
  ghost predicate StoreOk(accounts: map<Id, Account>) {
    && (forall id | id in accounts ::
          SchemaOk(accounts[id]) && 0 <= accounts[id].referralLevel && Truthy(accounts[id].referralCode))
    && LevelsLinked(accounts)
    && (forall i, j | i in accounts && j in accounts && i != j ::
          accounts[i].email != accounts[j].email && accounts[i].referralCode != accounts[j].referralCode)
  }

  // ---------------- Credit ledger ----------------

  /** `addCredits`: the balance moves by exactly `amount`, with no sign check; the save's
      `min: 0` bound rejects a result below zero. */
  function Credit(a: Account, amount: int): (r: Result<Account>)
    ensures r.Err? <==> a.pointsBalance + amount < 0
    ensures r.Ok? ==> r.value.pointsBalance - a.pointsBalance == amount
    ensures r.Ok? ==> r.value.(pointsBalance := a.pointsBalance) == a
  {
    var balance := a.pointsBalance + amount;
    if balance < 0 then Err(Thrown("Points balance cannot be negative"))
    else Ok(a.(pointsBalance := balance))
  }

  /** `deductCredits`: refused with "Insufficient credits" when the balance is below `amount`;
      otherwise the balance drops by exactly `amount` and stays non-negative. */
  function Debit(a: Account, amount: int): (r: Result<Account>)
    ensures r.Err? <==> a.pointsBalance < amount
    ensures r.Err? ==> r.error == Thrown("Insufficient credits")
    ensures r.Ok? ==> r.value.pointsBalance >= 0 && a.pointsBalance - r.value.pointsBalance == amount
    ensures r.Ok? ==> r.value.(pointsBalance := a.pointsBalance) == a
  {
    if a.pointsBalance < amount then Err(Thrown("Insufficient credits"))
    else Ok(a.(pointsBalance := a.pointsBalance - amount))
  }

  /** Deducting what was just added restores the account. */
  lemma DebitUndoesCredit(a: Account, amount: int)
    requires a.pointsBalance >= 0 && Credit(a, amount).Ok?
    ensures Debit(Credit(a, amount).value, amount) == Ok(a)
  {
  }

  /** Adding back what was just deducted restores the account. */
  lemma CreditUndoesDebit(a: Account, amount: int)
    requires a.pointsBalance >= 0 && Debit(a, amount).Ok?
    ensures Credit(Debit(a, amount).value, amount) == Ok(a)
  {
  }

  // ---------------- Purchase gate ----------------

  /** `canMakePurchase`: no gate date, or the clock has reached it. */
  predicate CanMakePurchase(a: Account, now: int) {
    a.nextPurchaseDate.None? || now >= a.nextPurchaseDate.value
  }

  /** Once the gate is open it stays open as time passes; with no gate date it is always open. */
  lemma PurchaseGateMonotone(a: Account, t1: int, t2: int)
    requires t1 <= t2
    ensures CanMakePurchase(a, t1) ==> CanMakePurchase(a, t2)
    ensures a.nextPurchaseDate.None? ==> CanMakePurchase(a, t1)
    ensures a.nextPurchaseDate.Some? ==> (CanMakePurchase(a, t1) <==> a.nextPurchaseDate.value <= t1)
  {
  }

  // ---------------- Referral chain ----------------

  /** One entry of the referral chain: an ancestor and its distance from the account (1 = parent). */
  datatype Link = Link(id: Id, level: nat)

  /** The walk of `getReferralChain` from the parent reference `next`, `level` hops already taken:
      it follows parent links while a reference exists, fewer than 12 hops were taken and the
      referenced account is found. */
  function Walk(accounts: map<Id, Account>, next: Option<Id>, level: nat): (w: seq<Link>)
    ensures forall i :: 0 <= i < |w| ==> w[i].id in accounts
    decreases MaxReferralLevel - level
  {
    if next.None? || level >= MaxReferralLevel || next.value !in accounts then []
    else [Link(next.value, level + 1)] + Walk(accounts, accounts[next.value].parentId, level + 1)
  }

  /** The referral chain of `start`: its ancestors, nearest first. */
  function ReferralChain(accounts: map<Id, Account>, start: Account): (c: seq<Link>)
    ensures forall i :: 0 <= i < |c| ==> c[i].id in accounts
  {
    Walk(accounts, start.parentId, 0)
  }

  /** A parent reference at which the walk stops: no reference, or one to a missing account. */
  predicate ChainEnds(accounts: map<Id, Account>, next: Option<Id>) {
    next.None? || next.value !in accounts
  }

  lemma {:induction false} WalkShape(accounts: map<Id, Account>, next: Option<Id>, k: nat, w: seq<Link>)
    requires k <= MaxReferralLevel && w == Walk(accounts, next, k)
    ensures |w| <= MaxReferralLevel - k
    ensures forall i :: 0 <= i < |w| ==> w[i].level == k + i + 1 && w[i].id in accounts
    ensures |w| > 0 ==> next == Some(w[0].id)
    ensures forall i :: 0 <= i < |w| - 1 ==> accounts[w[i].id].parentId == Some(w[i + 1].id)
    ensures |w| == 0 && k < MaxReferralLevel ==> ChainEnds(accounts, next)
    ensures |w| > 0 && |w| < MaxReferralLevel - k ==> ChainEnds(accounts, accounts[w[|w| - 1].id].parentId)
    decreases MaxReferralLevel - k
  {
    if w != [] {
      var p := next.value;
      var rest := Walk(accounts, accounts[p].parentId, k + 1);
      WalkShape(accounts, accounts[p].parentId, k + 1, rest);
      assert w == [Link(p, k + 1)] + rest;
      assert forall i :: 1 <= i < |w| ==> w[i] == rest[i - 1];
    }
  }

  /** What `getReferralChain` returns: at most 12 entries, entry i at level i + 1, entry 0 the
      account's parent and each next entry the previous one's parent, every entry a stored account;
      a chain shorter than 12 stops exactly where a parent reference is missing or dangling. */
  lemma ReferralChainShape(accounts: map<Id, Account>, start: Account, c: seq<Link>)
    requires c == ReferralChain(accounts, start)
    ensures |c| <= MaxReferralLevel
    ensures forall i :: 0 <= i < |c| ==> c[i].level == i + 1 && c[i].id in accounts
    ensures start.parentId.None? ==> c == []
    ensures |c| > 0 ==> start.parentId == Some(c[0].id)
    ensures forall i :: 0 <= i < |c| - 1 ==> accounts[c[i].id].parentId == Some(c[i + 1].id)
    ensures |c| == 0 ==> ChainEnds(accounts, start.parentId)
    ensures 0 < |c| < MaxReferralLevel ==> ChainEnds(accounts, accounts[c[|c| - 1].id].parentId)
  {
    WalkShape(accounts, start.parentId, 0, c);
  }

  lemma {:induction false} WalkLevels(accounts: map<Id, Account>, next: Option<Id>, k: nat, top: int, w: seq<Link>)
    requires LevelsLinked(accounts) && w == Walk(accounts, next, k)
    requires next.Some? && next.value in accounts ==> accounts[next.value].referralLevel == top
    ensures forall i :: 0 <= i < |w| ==> w[i].id in accounts && accounts[w[i].id].referralLevel == top - i
    decreases MaxReferralLevel - k
  {
    if w != [] {
      var p := next.value;
      var q := accounts[p].parentId;
      var rest := Walk(accounts, q, k + 1);
      WalkLevels(accounts, q, k + 1, top - 1, rest);
      assert w == [Link(p, k + 1)] + rest;
      assert forall i :: 1 <= i < |w| ==> w[i] == rest[i - 1];
    }
  }

  /** In a store whose levels follow parent links, the ancestors on a chain have strictly
      decreasing levels, so the chain never visits an account twice nor the account itself. */
  lemma ChainDistinct(accounts: map<Id, Account>, startId: Id, c: seq<Link>)
    requires LevelsLinked(accounts) && startId in accounts
    requires c == ReferralChain(accounts, accounts[startId])
    ensures forall i :: 0 <= i < |c| ==> c[i].id != startId
    ensures forall i, j :: 0 <= i < j < |c| ==> c[i].id != c[j].id
  {
    var start := accounts[startId];
    WalkLevels(accounts, start.parentId, 0, start.referralLevel - 1, c);
  }

  // ---------------- Referral-code generation ----------------

  /** How many candidates the pre-save loop draws: it stops at the first candidate not in use
      and never draws more than ten. */
  function Attempts(used: set<string>, candidates: seq<string>, k: nat): (n: nat)
    requires k < ReferralCodeAttempts <= |candidates|
    ensures k < n <= ReferralCodeAttempts
    ensures forall j :: k <= j < n - 1 ==> candidates[j] in used
    ensures n < ReferralCodeAttempts ==> candidates[n - 1] !in used
    decreases ReferralCodeAttempts - k
  {
    if candidates[k] !in used || k + 1 == ReferralCodeAttempts then k + 1
    else Attempts(used, candidates, k + 1)
  }

  /** The code the pre-save hook stores: the last candidate drawn, or the id-derived `fallback`
      when that candidate is empty. */
  function GeneratedCode(used: set<string>, candidates: seq<string>, fallback: string): string
    requires ReferralCodeAttempts <= |candidates|
  {
    var drawn := candidates[Attempts(used, candidates, 0) - 1];
    if drawn != "" then drawn else fallback
  }

  /** The first unused candidate among the first ten is the one chosen. */
  lemma FirstUnusedChosen(used: set<string>, candidates: seq<string>, fallback: string, j: nat)
    requires j < ReferralCodeAttempts <= |candidates|
    requires candidates[j] !in used && candidates[j] != ""
    requires forall i :: 0 <= i < j ==> candidates[i] in used
    ensures GeneratedCode(used, candidates, fallback) == candidates[j]
    ensures GeneratedCode(used, candidates, fallback) !in used
  {
    var n := Attempts(used, candidates, 0);
    assert candidates[j] !in used;
  }

  /** When all ten candidates are in use the tenth is kept anyway (so it collides), and the
      fallback replaces it only when it is empty. */
  lemma AllCandidatesUsed(used: set<string>, candidates: seq<string>, fallback: string)
    requires ReferralCodeAttempts <= |candidates|
    requires forall i :: 0 <= i < ReferralCodeAttempts ==> candidates[i] in used
    ensures GeneratedCode(used, candidates, fallback) ==
      if candidates[ReferralCodeAttempts - 1] != "" then candidates[ReferralCodeAttempts - 1] else fallback
  {
    var n := Attempts(used, candidates, 0);
    assert candidates[n - 1] in used;
  }

  /** The account after the referral-code pre-save hook: unchanged when it has a truthy code. */
  function WithCode(a: Account, used: set<string>, candidates: seq<string>, fallback: string): (b: Account)
    requires ReferralCodeAttempts <= |candidates|
    ensures b.(referralCode := a.referralCode) == a
    ensures Truthy(a.referralCode) ==> b == a
    ensures fallback != "" ==> Truthy(b.referralCode)
  {
    if Truthy(a.referralCode) then a
    else a.(referralCode := Some(GeneratedCode(used, candidates, fallback)))
  }

  /** Two versions of an account agree on everything the store's invariant speaks of. */
  predicate SameIdentity(a: Account, b: Account) {
    a.email == b.email && a.referralCode == b.referralCode && a.parentId == b.parentId &&
    a.referralLevel == b.referralLevel
  }

  /** No stored account names `id` as its parent: true of a freshly minted id. */
  predicate Unreferenced(accounts: map<Id, Account>, id: Id) {
    forall k | k in accounts :: accounts[k].parentId != Some(id)
  }

  /** The level of `a` is one more than its parent's, when the parent is stored. */
  predicate ParentLinked(accounts: map<Id, Account>, a: Account) {
    a.parentId.Some? && a.parentId.value in accounts ==>
      accounts[a.parentId.value].referralLevel + 1 == a.referralLevel
  }

  /** Inserting an account that passes validation and the unique indexes, under a fresh id,
      keeps the store invariant. */
  lemma InsertKeepsStore(accounts: map<Id, Account>, id: Id, a: Account)
    requires StoreOk(accounts) && id !in accounts && Unreferenced(accounts, id)
    requires SchemaOk(a) && a.referralLevel >= 0 && Truthy(a.referralCode) && ParentLinked(accounts, a)
    requires a.parentId != Some(id)
    requires a.email !in UsedEmails(accounts) && a.referralCode.value !in UsedCodes(accounts)
    ensures StoreOk(accounts[id := a])
  {
    var m := accounts[id := a];
    forall k | k in m && m[k].parentId.Some? && m[k].parentId.value in m
      ensures m[m[k].parentId.value].referralLevel + 1 == m[k].referralLevel
    {
      if k != id {
        assert m[k] == accounts[k];
        assert m[k].parentId.value != id;
        assert m[m[k].parentId.value] == accounts[accounts[k].parentId.value];
        assert accounts[accounts[k].parentId.value].referralLevel + 1 == accounts[k].referralLevel;
      }
    }
    forall i, j | i in m && j in m && i != j
      ensures m[i].email != m[j].email && m[i].referralCode != m[j].referralCode
    {
      if i == id {
        assert m[j].email in UsedEmails(accounts);
        assert m[j].referralCode.value in UsedCodes(accounts);
      } else if j == id {
        assert m[i].email in UsedEmails(accounts);
        assert m[i].referralCode.value in UsedCodes(accounts);
      }
    }
  }

  // ---------------- The users collection ----------------

  class AccountStore {
    var accounts: map<Id, Account>

    ghost predicate Valid()
      reads this
    {
      StoreOk(accounts)
    }

    constructor ()
      ensures accounts == map[] && Valid()
    {
      accounts := map[];
    }

    /** `addCredits` on the stored account `id`; returns the new balance. */
    method AddCredits(id: Id, amount: int) returns (r: Result<int>)
      requires id in accounts
      modifies this
      ensures match Credit(old(accounts[id]), amount)
        case Ok(a) => r == Ok(a.pointsBalance) && accounts == old(accounts)[id := a]
        case Err(e) => r == Err(e) && accounts == old(accounts)
      ensures old(Valid()) ==> Valid()
    {
      var credited := Credit(accounts[id], amount);
      if credited.Err? {
        return Err(credited.error);
      }
      accounts := accounts[id := credited.value];
      r := Ok(credited.value.pointsBalance);
    }

    /** `deductCredits` on the stored account `id`; returns the new balance. */
    method DeductCredits(id: Id, amount: int) returns (r: Result<int>)
      requires id in accounts
      modifies this
      ensures match Debit(old(accounts[id]), amount)
        case Ok(a) => r == Ok(a.pointsBalance) && accounts == old(accounts)[id := a]
        case Err(e) => r == Err(e) && accounts == old(accounts)
      ensures old(Valid()) ==> Valid()
    {
      var debited := Debit(accounts[id], amount);
      if debited.Err? {
        return Err(debited.error);
      }
      accounts := accounts[id := debited.value];
      r := Ok(debited.value.pointsBalance);
    }

    /** Writes back account `id` after an edit of its profile, its role or its lists. */
    method Replace(id: Id, a: Account)
      requires id in accounts
      modifies this
      ensures accounts == old(accounts)[id := a]
      ensures old(Valid()) && SchemaOk(a) && SameIdentity(old(accounts[id]), a) ==> Valid()
    {
      accounts := accounts[id := a];
    }

    /** `total_referrals += 1` followed by a save of the same account. */
    method CountReferral(id: Id)
      requires id in accounts
      modifies this
      ensures accounts == old(accounts)[id := old(accounts[id]).(totalReferrals := old(accounts[id]).totalReferrals + 1)]
      ensures old(Valid()) ==> Valid()
    {
      var a := accounts[id];
      accounts := accounts[id := a.(totalReferrals := a.totalReferrals + 1)];
    }

    /** `User.create`: the pre-save hook gives the draft a referral code, then the insert is
        refused when the schema bounds fail or the e-mail or code is already in use. */
    method Create(id: Id, draft: Account, candidates: seq<string>, fallback: string) returns (r: Result<Account>)
      requires id !in accounts && ReferralCodeAttempts <= |candidates|
      modifies this
      ensures r.Err? ==> accounts == old(accounts)
      ensures r.Ok? ==> accounts == old(accounts)[id := r.value]
      ensures r.Ok? <==> var b := WithCode(draft, UsedCodes(old(accounts)), candidates, fallback);
        SchemaOk(b) && b.email !in UsedEmails(old(accounts)) &&
        (b.referralCode.Some? ==> b.referralCode.value !in UsedCodes(old(accounts)))
      ensures r.Ok? ==> r.value == WithCode(draft, UsedCodes(old(accounts)), candidates, fallback)
      ensures (old(Valid()) && r.Ok? && fallback != "" && Unreferenced(old(accounts), id) &&
               ParentLinked(old(accounts), draft) && draft.parentId != Some(id) && draft.referralLevel >= 0) ==> Valid()
    {
      var b := AssignReferralCode(draft, candidates, fallback);
      if !SchemaOk(b) || b.email in UsedEmails(accounts) ||
        (b.referralCode.Some? && b.referralCode.value in UsedCodes(accounts))
      {
        return Err(Thrown("Validation failed or duplicate key"));
      }
      ghost var before := accounts;
      accounts := accounts[id := b];
      r := Ok(b);
      if old(Valid()) && fallback != "" && Unreferenced(before, id) && ParentLinked(before, draft) &&
         draft.parentId != Some(id) && draft.referralLevel >= 0
      {
        InsertKeepsStore(before, id, b);
      }
    }

    /** `getReferralChain`: walks parent references, one lookup per hop. */
    method GetReferralChain(start: Account) returns (chain: seq<Link>)
      ensures chain == ReferralChain(accounts, start)
    {
      chain := [];
      var next := start.parentId;
      var level := 0;
      while next.Some? && level < MaxReferralLevel
        invariant 0 <= level <= MaxReferralLevel
        invariant chain + Walk(accounts, next, level) == ReferralChain(accounts, start)
        decreases MaxReferralLevel - level
      {
        if next.value in accounts {
          var parent := accounts[next.value];
          var link := Link(next.value, level + 1);
          ghost var rest := Walk(accounts, parent.parentId, level + 1);
          assert Walk(accounts, next, level) == [link] + rest;
          assert chain + [link] + rest == chain + ([link] + rest);
          chain := chain + [link];
          next := parent.parentId;
          level := level + 1;
        } else {
          break;
        }
      }
      assert Walk(accounts, next, level) == [];
      assert chain + [] == chain;
    }

    /** The referral-code pre-save hook: only an account without a code gets one. `candidates`
        are the random codes the hook would draw, `fallback` the code derived from the id. */
    method AssignReferralCode(a: Account, candidates: seq<string>, fallback: string) returns (b: Account)
      requires ReferralCodeAttempts <= |candidates|
      ensures b == WithCode(a, UsedCodes(accounts), candidates, fallback)
      ensures Truthy(a.referralCode) ==> b == a
    {
      if Truthy(a.referralCode) {
        return a;
      }
      var used := UsedCodes(accounts);
      var referralCode := "";
      var isUnique := false;
      var attempts := 0;
      while !isUnique && attempts < ReferralCodeAttempts
        invariant 0 <= attempts <= ReferralCodeAttempts
        invariant !isUnique && attempts < ReferralCodeAttempts ==>
          Attempts(used, candidates, 0) == Attempts(used, candidates, attempts)
        invariant isUnique || attempts == ReferralCodeAttempts ==>
          attempts >= 1 && Attempts(used, candidates, 0) == attempts
        invariant attempts >= 1 ==> referralCode == candidates[attempts - 1]
      {
        referralCode := candidates[attempts];
        if referralCode !in used {
          isUnique := true;
        }
        attempts := attempts + 1;
      }
      b := a.(referralCode := Some(if referralCode != "" then referralCode else fallback));
    }
  }
}
