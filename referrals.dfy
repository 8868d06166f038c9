/** Registration and referral rewards (backend/controllers/authController.js): a new account
    joins the tree under the account whose referral code it presents, and the ancestors found
    by the chain walk are paid the fixed bonuses. */
module Referrals {
  import opened Common
  import opened Accounts

  /** Credits paid to the direct parent of a new account. */
  const ParentBonus := 50
  /** Credits paid to the ancestor whose level equals the chain length, unless that is the parent. */
  const MainParentBonus := 100

  /** The bonus an entry of a chain of length `n` earns: 50 at level 1, otherwise 100 at level
      `n`, otherwise nothing. The `else if` means a one-entry chain pays 50 only. */
  function Bonus(link: Link, n: nat): (b: int)
    ensures b == ParentBonus <==> link.level == 1
    ensures b == MainParentBonus <==> link.level != 1 && link.level == n
    ensures b == 0 <==> link.level != 1 && link.level != n
  {
    if link.level == 1 then ParentBonus
    else if link.level == n then MainParentBonus
    else 0
  }

  /** One pass of the reward loop: the parent is credited and its referral count raised; the
      main parent is credited; a credit that fails its save ends the loop (`Err`). */
  function RewardOne(accounts: map<Id, Account>, link: Link, n: nat): (r: Result<map<Id, Account>>)
    requires link.id in accounts
    ensures r.Ok? ==> r.value.Keys == accounts.Keys
    ensures r.Ok? ==> forall id | id in accounts && id != link.id :: r.value[id] == accounts[id]
    ensures Bonus(link, n) == 0 ==> r == Ok(accounts)
    ensures accounts[link.id].pointsBalance >= 0 ==> r.Ok?
  {
    var a := accounts[link.id];
    if link.level == 1 then
      match Credit(a, ParentBonus)
      case Err(e) => Err(e)
      case Ok(b) => Ok(accounts[link.id := b.(totalReferrals := b.totalReferrals + 1)])
    else if link.level == n then
      match Credit(a, MainParentBonus)
      case Err(e) => Err(e)
      case Ok(b) => Ok(accounts[link.id := b])
    else Ok(accounts)
  }

  /** The accounts after the reward loop has run from entry `i` on: at most 12 entries are
      visited, and a failure stops the loop with the earlier payments kept (the error is
      swallowed). */
  function Rewards(accounts: map<Id, Account>, chain: seq<Link>, i: nat): (r: map<Id, Account>)
    requires i <= |chain|
    requires forall k :: 0 <= k < |chain| ==> chain[k].id in accounts
    ensures r.Keys == accounts.Keys
    decreases |chain| - i
  {
    if i == |chain| || i >= MaxReferralLevel then accounts
    else match RewardOne(accounts, chain[i], |chain|)
      case Err(_) => accounts
      case Ok(next) => Rewards(next, chain, i + 1)
  }

  /** Past the first entry, only the last one can earn anything: it gets 100 when it is not the parent. */
  lemma {:induction false} RewardsAfterParent(accounts: map<Id, Account>, chain: seq<Link>, i: nat)
    requires 1 <= i <= |chain| <= MaxReferralLevel
    requires forall k :: 0 <= k < |chain| ==> chain[k].id in accounts && chain[k].level == k + 1
    requires i < |chain| ==> accounts[chain[|chain| - 1].id].pointsBalance >= 0
    ensures Rewards(accounts, chain, i) ==
      if i < |chain| then
        var last := chain[|chain| - 1].id;
        accounts[last := accounts[last].(pointsBalance := accounts[last].pointsBalance + MainParentBonus)]
      else accounts
    decreases |chain| - i
  {
    if i < |chain| - 1 {
      assert RewardOne(accounts, chain[i], |chain|) == Ok(accounts);
      RewardsAfterParent(accounts, chain, i + 1);
    } else if i == |chain| - 1 {
      var next := RewardOne(accounts, chain[i], |chain|).value;
      assert Rewards(next, chain, i + 1) == next;
    }
  }

  /** What registration pays out, for a chain whose entries are distinct stored accounts at
      levels 1, 2, ...: the parent gains exactly 50 credits and one referral; when the chain
      has more than one entry its last entry gains exactly 100; every other account is untouched. */
  lemma RewardsPaid(accounts: map<Id, Account>, chain: seq<Link>)
    requires |chain| <= MaxReferralLevel
    requires forall k :: 0 <= k < |chain| ==> chain[k].id in accounts && chain[k].level == k + 1
    requires forall k :: 0 <= k < |chain| ==> accounts[chain[k].id].pointsBalance >= 0
    requires forall j, k :: 0 <= j < k < |chain| ==> chain[j].id != chain[k].id
    ensures Rewards(accounts, chain, 0).Keys == accounts.Keys
    ensures forall id | id in accounts && (chain == [] || (id != chain[0].id && id != chain[|chain| - 1].id)) ::
      Rewards(accounts, chain, 0)[id] == accounts[id]
    ensures chain != [] ==>
      Rewards(accounts, chain, 0)[chain[0].id] ==
        accounts[chain[0].id].(pointsBalance := accounts[chain[0].id].pointsBalance + ParentBonus,
                               totalReferrals := accounts[chain[0].id].totalReferrals + 1)
    ensures |chain| > 1 ==>
      Rewards(accounts, chain, 0)[chain[|chain| - 1].id] ==
        accounts[chain[|chain| - 1].id].(pointsBalance := accounts[chain[|chain| - 1].id].pointsBalance + MainParentBonus)
  {
    if chain != [] {
      var next := RewardOne(accounts, chain[0], |chain|).value;
      if |chain| > 1 {
        assert chain[0].id != chain[|chain| - 1].id;
      }
      RewardsAfterParent(next, chain, 1);
    }
  }

  /** The rewards for a stored account `id` with a stored parent, in a store whose invariant
      holds: the parent gains exactly 50 credits and one referral, the chain's farthest
      ancestor gains exactly 100 when it is not the parent, and nobody else changes. */
  lemma RegistrationPays(accounts: map<Id, Account>, id: Id, c: seq<Link>, r: map<Id, Account>)
    requires StoreOk(accounts) && id in accounts
    requires accounts[id].parentId.Some? && accounts[id].parentId.value in accounts
    requires c == ReferralChain(accounts, accounts[id]) && r == Rewards(accounts, c, 0)
    ensures r.Keys == accounts.Keys && c != [] && c[0].id == accounts[id].parentId.value
    ensures r[c[0].id] == accounts[c[0].id].(pointsBalance := accounts[c[0].id].pointsBalance + ParentBonus,
                                             totalReferrals := accounts[c[0].id].totalReferrals + 1)
    ensures |c| > 1 ==>
      && c[|c| - 1].id != c[0].id
      && r[c[|c| - 1].id] == accounts[c[|c| - 1].id].(pointsBalance := accounts[c[|c| - 1].id].pointsBalance + MainParentBonus)
    ensures forall k | k in accounts && k != c[0].id && k != c[|c| - 1].id :: r[k] == accounts[k]
  {
    ReferralChainShape(accounts, accounts[id], c);
    ChainDistinct(accounts, id, c);
    assert forall k :: 0 <= k < |c| ==> accounts[c[k].id].pointsBalance >= 0;
    RewardsPaid(accounts, c);
  }

  /** The body of the reward loop for one chain entry: `addCredits` and, for the parent, the
      referral count. Returns false when a save fails, which ends the loop. */
  method PayBonus(store: AccountStore, link: Link, n: nat) returns (paid: bool)
    requires link.id in store.accounts
    modifies store
    ensures paid == RewardOne(old(store.accounts), link, n).Ok?
    ensures paid ==> store.accounts == RewardOne(old(store.accounts), link, n).value
    ensures !paid ==> store.accounts == old(store.accounts)
    ensures old(store.Valid()) ==> store.Valid()
  {
    if link.level == 1 {
      var credited := store.AddCredits(link.id, ParentBonus);
      if credited.Err? {
        return false;
      }
      store.CountReferral(link.id);
    } else if link.level == n {
      var credited := store.AddCredits(link.id, MainParentBonus);
      if credited.Err? {
        return false;
      }
    }
    paid := true;
  }

  /** `processReferralRewards`: walks the new account's chain and pays each entry its bonus. */
  method ProcessReferralRewards(store: AccountStore, newId: Id)
    requires newId in store.accounts
    modifies store
    ensures store.accounts ==
      Rewards(old(store.accounts), ReferralChain(old(store.accounts), old(store.accounts[newId])), 0)
    ensures old(store.Valid()) ==> store.Valid()
  {
    var chain := store.GetReferralChain(store.accounts[newId]);
    ghost var start := store.accounts;
    var i := 0;
    while i < |chain| && i < MaxReferralLevel
      invariant i <= |chain|
      invariant forall k :: 0 <= k < |chain| ==> chain[k].id in store.accounts
      invariant Rewards(store.accounts, chain, i) == Rewards(start, chain, 0)
      invariant old(store.Valid()) ==> store.Valid()
      decreases |chain| - i
    {
      var paid := PayBonus(store, chain[i], |chain|);
      if !paid {
        return;
      }
      i := i + 1;
    }
  }

  /** The account `findOne({ referral_code })` returns; unique when the store's index holds. */
  ghost function Referrer(accounts: map<Id, Account>, code: string): (id: Id)
    requires code in UsedCodes(accounts)
    ensures id in accounts && accounts[id].referralCode == Some(code)
  {
    var id :| id in accounts && accounts[id].referralCode == Some(code); id
  }

  /** The account `register` creates, before its referral code is drawn: a zero balance, the
      referrer as parent and the referrer's level plus one, or no parent and level 0. */
  ghost function Draft(accounts: map<Id, Account>, email: string, referralCode: Option<string>): (a: Account)
    requires Truthy(referralCode) ==> referralCode.value in UsedCodes(accounts)
    ensures a.email == email && a.pointsBalance == 0 && a.totalReferrals == 0 && a.role == User
    ensures a.referralCode.None? && a.addresses == [] && a.wishlist == []
    ensures !Truthy(referralCode) ==> a.parentId.None? && a.referralLevel == 0
    ensures Truthy(referralCode) ==>
      && a.parentId.Some? && a.parentId.value in accounts
      && accounts[a.parentId.value].referralCode == referralCode
      && a.referralLevel == accounts[a.parentId.value].referralLevel + 1
  {
    var parent := if Truthy(referralCode) then Some(Referrer(accounts, referralCode.value)) else None;
    var level := if parent.Some? then accounts[parent.value].referralLevel + 1 else 0;
    Account(email, 0, parent, User, None, None, level, 0, [], [])
  }

  /** The checks `register` makes before it creates the account, in their order: a used e-mail,
      an unknown referral code, a level above 12. */
  ghost function DraftOutcome(accounts: map<Id, Account>, email: string, referralCode: Option<string>): (r: Result<Account>)
    requires StoreOk(accounts)
    ensures email in UsedEmails(accounts) ==> r == Err(Status(400, "User already exists with this email"))
    ensures email !in UsedEmails(accounts) && Truthy(referralCode) && referralCode.value !in UsedCodes(accounts) ==>
      r == Err(Status(400, "Invalid referral code"))
    ensures r.Ok? ==> r.value.email !in UsedEmails(accounts) && SchemaOk(r.value) && r.value.referralLevel >= 0
    ensures r.Ok? ==> ParentLinked(accounts, r.value) && (r.value.parentId.Some? ==> r.value.parentId.value in accounts)
    ensures r.Ok? ==> r == Ok(Draft(accounts, email, referralCode))
    ensures r.Err? ==> r.error.Status? && r.error.code == 400
    ensures email !in UsedEmails(accounts) && (Truthy(referralCode) ==> referralCode.value in UsedCodes(accounts)) ==>
      && (r.Ok? <==> Draft(accounts, email, referralCode).referralLevel <= MaxReferralLevel)
      && (r.Err? ==> r == Err(Status(400, "Referral chain limit exceeded")))
  {
    if email in UsedEmails(accounts) then Err(Status(400, "User already exists with this email"))
    else if Truthy(referralCode) && referralCode.value !in UsedCodes(accounts) then Err(Status(400, "Invalid referral code"))
    else
      var draft := Draft(accounts, email, referralCode);
      if draft.referralLevel > MaxReferralLevel then Err(Status(400, "Referral chain limit exceeded"))
      else Ok(draft)
  }

  /** The response `register` decides on: the checks above, then a 500 when the drawn referral
      code collides with a stored one (the unique index refuses the insert). */
  ghost function RegisterOutcome(accounts: map<Id, Account>, email: string, referralCode: Option<string>,
                                 candidates: seq<string>, fallback: string): (r: Result<Account>)
    requires StoreOk(accounts) && ReferralCodeAttempts <= |candidates|
    ensures DraftOutcome(accounts, email, referralCode).Err? ==> r == DraftOutcome(accounts, email, referralCode)
    ensures DraftOutcome(accounts, email, referralCode).Ok? ==>
      var a := WithCode(DraftOutcome(accounts, email, referralCode).value, UsedCodes(accounts), candidates, fallback);
      && (r.Ok? <==> a.referralCode.Some? && a.referralCode.value !in UsedCodes(accounts))
      && (r.Err? ==> r == Err(Status(500, "Server error during registration")))
    ensures r.Ok? ==> r.value.email == email && r.value.email !in UsedEmails(accounts)
    ensures r.Ok? ==> r.value.pointsBalance == 0 && 0 <= r.value.referralLevel <= MaxReferralLevel
    ensures r.Ok? && fallback != "" ==> Truthy(r.value.referralCode) && r.value.referralCode.value !in UsedCodes(accounts)
    ensures r.Ok? && !Truthy(referralCode) ==> r.value.parentId.None? && r.value.referralLevel == 0
    ensures r.Ok? && Truthy(referralCode) ==>
      && r.value.parentId.Some? && r.value.parentId.value in accounts
      && accounts[r.value.parentId.value].referralCode == referralCode
      && r.value.referralLevel == accounts[r.value.parentId.value].referralLevel + 1
  {
    match DraftOutcome(accounts, email, referralCode)
    case Err(e) => Err(e)
    case Ok(draft) =>
      var a := WithCode(draft, UsedCodes(accounts), candidates, fallback);
      if a.referralCode.value in UsedCodes(accounts) then Err(Status(500, "Server error during registration"))
      else Ok(a)
  }

  /** A referral code names the account that holds it: the index on codes is unique. */
  lemma ReferrerUnique(accounts: map<Id, Account>, code: string, id: Id)
    requires StoreOk(accounts) && id in accounts && accounts[id].referralCode == Some(code)
    ensures code in UsedCodes(accounts) && Referrer(accounts, code) == id
  {
    assert code in UsedCodes(accounts);
  }

  /** The validation part of `register`: duplicate e-mail, referral-code lookup and level limit. */
  method CheckRegistration(store: AccountStore, email: string, referralCode: Option<string>) returns (r: Result<Account>)
    requires store.Valid()
    ensures r == DraftOutcome(store.accounts, email, referralCode)
  {
    if email in UsedEmails(store.accounts) {
      return Err(Status(400, "User already exists with this email"));
    }
    var parent: Option<Id> := None;
    var level := 0;
    if Truthy(referralCode) {
      if referralCode.value !in UsedCodes(store.accounts) {
        return Err(Status(400, "Invalid referral code"));
      }
      var referrer :| referrer in store.accounts && store.accounts[referrer].referralCode == referralCode;
      ReferrerUnique(store.accounts, referralCode.value, referrer);
      parent := Some(referrer);
      level := store.accounts[referrer].referralLevel + 1;
      if level > MaxReferralLevel {
        return Err(Status(400, "Referral chain limit exceeded"));
      }
    }
    r := Ok(Account(email, 0, parent, User, None, None, level, 0, [], []));
  }

  /** The second half of `register`: `User.create` and, when the account has a parent, the rewards. */
  method CreateAndReward(store: AccountStore, newId: Id, draft: Account, candidates: seq<string>, fallback: string)
    returns (r: Result<Account>)
    requires store.Valid() && newId !in store.accounts && Unreferenced(store.accounts, newId)
    requires ReferralCodeAttempts <= |candidates| && fallback != ""
    requires draft.email !in UsedEmails(store.accounts) && SchemaOk(draft) && draft.referralLevel >= 0
    requires ParentLinked(store.accounts, draft) && (draft.parentId.Some? ==> draft.parentId.value in store.accounts)
    requires draft.referralCode.None?
    modifies store
    ensures store.Valid()
    ensures var a := WithCode(draft, UsedCodes(old(store.accounts)), candidates, fallback);
      if a.referralCode.value in UsedCodes(old(store.accounts))
      then r == Err(Status(500, "Server error during registration")) && store.accounts == old(store.accounts)
      else r == Ok(a) && store.accounts == Rewards(old(store.accounts)[newId := a], ReferralChain(old(store.accounts)[newId := a], a), 0)
  {
    var created := store.Create(newId, draft, candidates, fallback);
    if created.Err? {
      return Err(Status(500, "Server error during registration"));
    }
    r := Ok(created.value);
    ghost var inserted := store.accounts;
    assert inserted[newId] == created.value;
    if draft.parentId.Some? {
      ProcessReferralRewards(store, newId);
    } else {
      assert ReferralChain(inserted, created.value) == [];
    }
  }

  /** `register` on a store of valid accounts. `newId` is the fresh id of the new account,
      `candidates` the random codes the pre-save hook draws and `fallback` the code derived from
      the id; the account name, password and contact are not modelled. */
  method Register(store: AccountStore, newId: Id, email: string, referralCode: Option<string>,
                  candidates: seq<string>, fallback: string) returns (r: Result<Account>)
    requires store.Valid() && newId !in store.accounts && Unreferenced(store.accounts, newId)
    requires ReferralCodeAttempts <= |candidates| && fallback != ""
    modifies store
    ensures store.Valid()
    ensures r == RegisterOutcome(old(store.accounts), email, referralCode, candidates, fallback)
    ensures r.Err? ==> store.accounts == old(store.accounts)
    ensures r.Ok? ==>
      var created := old(store.accounts)[newId := r.value];
      store.accounts == Rewards(created, ReferralChain(created, r.value), 0)
  {
    var checked := CheckRegistration(store, email, referralCode);
    if checked.Err? {
      return checked;
    }
    r := CreateAndReward(store, newId, checked.value, candidates, fallback);
  }
}
