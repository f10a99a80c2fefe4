/**
 * The emergency-fund tracker (`src/components/loans/EmergencyFundTracker.tsx`,
 * lines 11-30): a target of six months of fixed expenses, the progress towards
 * it, and the add/remove form that rewrites the store's `emergencyFund`.
 *
 * The amount typed into the form is parsed by a `parse` argument standing for
 * `parseFloat`; `None` stands for NaN.
 */
module EmergencyFund {
  import opened Collections
  import opened FinanceTypes
  import opened Store

  /** `budgetSettings?.fixedExpenses || 0`: no settings, no field and 0 all give 0. */
  function MonthlyExpenses(settings: Option<BudgetSettings>): real {
    if settings.Some? then settings.value.fixedExpenses.GetOr(0.0) else 0.0
  }

  /** Six months of fixed expenses. */
  function TargetFund(settings: Option<BudgetSettings>): (t: real)
    ensures settings.None? || settings.value.fixedExpenses.None? ==> t == 0.0
    ensures settings.Some? && settings.value.fixedExpenses.Some? ==>
      t == 6.0 * settings.value.fixedExpenses.value
  {
    MonthlyExpenses(settings) * 6.0
  }

  /** The progress bar's percentage: 0 unless the target is positive. */
  function Progress(fund: real, target: real): (p: real)
    ensures target <= 0.0 ==> p == 0.0
    ensures target > 0.0 ==> (0.0 <= p <= 100.0 <==> 0.0 <= fund <= target)
    ensures target > 0.0 ==> (p == 100.0 <==> fund == target)
    ensures target > 0.0 ==> p * target == fund * 100.0
  {
    if target > 0.0 then fund / target * 100.0 else 0.0
  }

  datatype TxKind = Deposit | Withdraw

  /**
   * `handleTransaction`'s effect on the fund: `None` when the amount is rejected
   * (not a number, or not positive), otherwise the new balance.
   */
  function Transact(fund: real, kind: TxKind, value: Option<real>): (r: Option<real>)
    ensures r.None? <==> value.None? || value.value <= 0.0
  {
    if value.None? || value.value <= 0.0 then None
    else if kind == Deposit then Some(fund + value.value)
    else Some(if fund - value.value > 0.0 then fund - value.value else 0.0)
  }

  /** A deposit raises the fund by exactly the amount. */
  lemma DepositAdds(fund: real, v: real)
    requires v > 0.0
    ensures Transact(fund, Deposit, Some(v)) == Some(fund + v)
    ensures Transact(fund, Deposit, Some(v)).value > fund
  {
  }

  /**
   * A withdrawal never leaves a negative balance, never raises a non-negative one,
   * and empties the fund exactly when the amount covers it.
   */
  lemma WithdrawClamps(fund: real, v: real)
    requires v > 0.0
    ensures Transact(fund, Withdraw, Some(v)).Some?
    ensures Transact(fund, Withdraw, Some(v)).value >= 0.0
    ensures fund >= 0.0 ==> Transact(fund, Withdraw, Some(v)).value <= fund
    ensures fund > 0.0 ==> Transact(fund, Withdraw, Some(v)).value < fund
    ensures Transact(fund, Withdraw, Some(v)).value == 0.0 <==> v >= fund
    ensures v < fund ==> Transact(fund, Withdraw, Some(v)).value == fund - v
  {
  }

  /** Any accepted transaction keeps a non-negative fund non-negative. */
  lemma TransactKeepsNonNegative(fund: real, kind: TxKind, value: Option<real>)
    requires fund >= 0.0
    ensures Transact(fund, kind, value).Some? ==> Transact(fund, kind, value).value >= 0.0
  {
  }

  /** Adding then removing the same amount restores a non-negative fund. */
  lemma DepositThenWithdrawRestores(fund: real, v: real)
    requires fund >= 0.0 && v > 0.0
    ensures Transact(Transact(fund, Deposit, Some(v)).value, Withdraw, Some(v)) == Some(fund)
  {
  }

  /** Removing then adding back restores the fund only when the removal was not clamped. */
  lemma WithdrawThenDepositRestoresIff(fund: real, v: real)
    requires fund >= 0.0 && v > 0.0
    ensures Transact(Transact(fund, Withdraw, Some(v)).value, Deposit, Some(v)).value >= fund
    ensures Transact(Transact(fund, Withdraw, Some(v)).value, Deposit, Some(v)) == Some(fund) <==> v <= fund
  {
  }

  /** A negative balance is not restored: the clamp of the removal swallows it. */
  lemma NegativeFundNotRestored(fund: real, v: real)
    requires fund < 0.0 && v > 0.0
    ensures Transact(Transact(fund, Deposit, Some(v)).value, Withdraw, Some(v)) == Some(0.0)
    ensures Transact(Transact(fund, Deposit, Some(v)).value, Withdraw, Some(v)) != Some(fund)
  {
  }

  /** The tracker's form state: the amount being typed and whether the input is open. */
  class EmergencyFundForm {
    var amount: string
    var isAdding: bool

    constructor()
      ensures amount == "" && !isAdding
    {
      amount, isAdding := "", false;
    }

    /**
     * `handleTransaction(type)`: a rejected amount changes nothing; an accepted one
     * writes the new balance to the store, clears the amount and closes the input.
     */
    method HandleTransaction(store: FinanceStore, kind: TxKind, parse: string -> Option<real>)
      modifies this, store`emergencyFund
      ensures Transact(old(store.emergencyFund), kind, parse(old(amount))).None? ==>
        store.emergencyFund == old(store.emergencyFund) && amount == old(amount) && isAdding == old(isAdding)
      ensures Transact(old(store.emergencyFund), kind, parse(old(amount))).Some? ==>
        store.emergencyFund == Transact(old(store.emergencyFund), kind, parse(old(amount))).value &&
        amount == "" && !isAdding
    {
      var value := parse(amount);
      if value.None? || value.value <= 0.0 {
        return;
      }
      if kind == Deposit {
        store.SetEmergencyFund(store.emergencyFund + value.value);
      } else {
        var rest := store.emergencyFund - value.value;
        store.SetEmergencyFund(if rest > 0.0 then rest else 0.0);
      }
      amount := "";
      isAdding := false;
    }
  }
}
