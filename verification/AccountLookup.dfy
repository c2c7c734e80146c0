/** How a service finds the account to post to (`service.rs`): by code, by type, by role, by partner. */
module AccountLookup {
  import opened Wrappers
  import opened Ledger

  /** The first account, in chart order, of a type. */
  ghost predicate IsFirstOf(c: Chart, kind: AccountType, a: AccountId) {
    && a < |c.accounts| && c.accounts[a].kind == kind
    && forall i :: 0 <= i < a ==> c.accounts[i].kind != kind
  }

  /** The first account with a code. */
  ghost predicate IsFirstCoded(c: Chart, code: string, a: AccountId) {
    && a < |c.accounts| && c.accounts[a].code == code
    && forall i :: 0 <= i < a ==> c.accounts[i].code != code
  }

  lemma {:induction false} NoneBefore(c: Chart, p: Account -> bool, from: nat, a: AccountId)
    requires from <= |c.accounts|
    ensures c.FirstWhere(p, from) == Some(a) <==>
            from <= a < |c.accounts| && p(c.accounts[a]) && forall i :: from <= i < a ==> !p(c.accounts[i])
    decreases |c.accounts| - from
  {
    if from < |c.accounts| && !p(c.accounts[from]) {
      NoneBefore(c, p, from + 1, a);
    }
  }

  lemma ByTypeIsFirst(c: Chart, kind: AccountType, a: AccountId)
    ensures c.FirstOfKind(kind) == Some(a) <==> IsFirstOf(c, kind, a)
  {
    NoneBefore(c, (x: Account) => x.kind == kind, 0, a);
  }

  lemma ByCodeIsFirst(c: Chart, code: string, a: AccountId)
    ensures c.ByCode(code) == Some(a) <==> IsFirstCoded(c, code, a)
  {
    NoneBefore(c, (x: Account) => x.code == code, 0, a);
  }

  /** The account of a role: the configured one, else the first of the role's type. */
  ghost predicate IsDefault(c: Chart, role: Role, kind: AccountType, a: AccountId) {
    if role in c.defaults then a == c.defaults[role] else IsFirstOf(c, kind, a)
  }

  lemma DefaultsAre(c: Chart, a: AccountId)
    ensures c.DefaultAccount(Receivable) == Some(a) <==> IsDefault(c, Receivable, AssetReceivable, a)
    ensures c.DefaultAccount(Payable) == Some(a) <==> IsDefault(c, Payable, LiabilityPayable, a)
    ensures c.DefaultAccount(IncomeRole) == Some(a) <==> IsDefault(c, IncomeRole, Income, a)
    ensures c.DefaultAccount(ExpenseRole) == Some(a) <==> IsDefault(c, ExpenseRole, Expense, a)
    ensures c.DefaultAccount(TaxRole) == Some(a) <==> IsDefault(c, TaxRole, LiabilityCurrent, a)
  {
    ByTypeIsFirst(c, AssetReceivable, a);
    ByTypeIsFirst(c, LiabilityPayable, a);
    ByTypeIsFirst(c, Income, a);
    ByTypeIsFirst(c, Expense, a);
    ByTypeIsFirst(c, LiabilityCurrent, a);
  }

  /**
   The control account of a partner: its own receivable or payable when one is set, else the company's
   configured one, else the first account of the type. Nothing else is ever taken.
   */
  lemma ControlAccountIs(c: Chart, p: PartnerId, a: AccountId)
    ensures c.PartnerAccount(Some(p), Receivable) == Some(a) <==>
            if p in c.partnerReceivable then a == c.partnerReceivable[p] else IsDefault(c, Receivable, AssetReceivable, a)
    ensures c.PartnerAccount(Some(p), Payable) == Some(a) <==>
            if p in c.partnerPayable then a == c.partnerPayable[p] else IsDefault(c, Payable, LiabilityPayable, a)
  {
    DefaultsAre(c, a);
  }
}
