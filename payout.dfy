/**
 * The payout wallet: the wallet and history load with their defaults, the
 * payout request guarded by the available balance, and the colour of a
 * history row. The three requests are inputs.
 */
module Payout {
  import opened Wrappers
  import opened Entities

  /** The wallet as the backend sends it. */
  datatype Wallet = Wallet(available: Option<nat>, pending: Option<nat>)

  /** The wallet shown when the backend sends none. */
  const EmptyWallet := Wallet(Some(0), Some(0))

  /** One row of the payout history. */
  datatype PayoutItem = PayoutItem(id: string, amount: Option<nat>, status: Option<string>, details: map<string, string>)

  /** The pair of reads: both arrive, or the pair fails. */
  datatype LoadResult = Loaded(wallet: Option<Wallet>, payouts: ListBody<PayoutItem>) | LoadFailed

  /** `wallet?.available`. */
  function Available(w: Option<Wallet>): Option<nat> {
    if w.Some? then w.value.available else None
  }

  /** The balance on the wallet card: the available amount, else 0. */
  function ShownBalance(w: Option<Wallet>): (n: nat)
    ensures n == 0 <==> !Truthy(Available(w))
    ensures n != 0 ==> Available(w) == Some(n)
  {
    FirstTruthy(Available(w), None)
  }

  const CompletedColor := "#16A34A"
  const OtherColor := "#EA580C"

  /** A row is green for the exact status "Completed" and orange otherwise. */
  function StatusColor(status: Option<string>): (c: string)
    ensures c == CompletedColor <==> status == Some("Completed")
    ensures c == OtherColor <==> status != Some("Completed")
  {
    if status == Some("Completed") then CompletedColor else OtherColor
  }

  /** How a tap on Request Payout ends. */
  datatype Request =
    /** "No balance available"; nothing is withdrawn. */
    | NoBalance
    | Cancelled
    /** A withdrawal of `amount` was sent and succeeded; the screen reloads. */
    | Withdrawn(amount: nat)
    /** The withdrawal was sent and failed; the rejection is not caught. */
    | WithdrawFailed(amount: nat)

  class Screen {
    var wallet: Option<Wallet>
    var history: seq<PayoutItem>
    var loading: bool
    var refreshing: bool

    constructor()
      ensures wallet == None && history == [] && loading && !refreshing
    {
      wallet := None;
      history := [];
      loading := true;
      refreshing := false;
    }

    /** `loadData`: a missing wallet becomes the empty one, the history is the
        array or its `items`; a failure is logged and keeps both; the spinners
        stop on every path. */
    method LoadData(res: LoadResult)
      modifies this
      ensures res.Loaded? ==> wallet == Some(res.wallet.GetOr(EmptyWallet)) && history == ItemsOf(res.payouts)
      ensures res.LoadFailed? ==> wallet == old(wallet) && history == old(history)
      ensures !loading && !refreshing
    {
      if res.Loaded? {
        wallet := Some(res.wallet.GetOr(EmptyWallet));
        history := ItemsOf(res.payouts);
      }
      loading := false;
      refreshing := false;
    }

    method OnRefresh()
      modifies this
      ensures refreshing && wallet == old(wallet) && history == old(history) && loading == old(loading)
    {
      refreshing := true;
    }

    /** `requestPayout`: a zero or absent balance stops at an alert; otherwise,
        once confirmed, exactly the available balance is withdrawn. */
    method RequestPayout(confirmed: bool, withdrawOk: bool) returns (r: Request)
      ensures r == NoBalance <==> !Truthy(Available(wallet))
      ensures r == Cancelled <==> Truthy(Available(wallet)) && !confirmed
      ensures r.Withdrawn? <==> Truthy(Available(wallet)) && confirmed && withdrawOk
      ensures r.Withdrawn? || r.WithdrawFailed? ==> r.amount == ShownBalance(wallet) && r.amount > 0
    {
      if !Truthy(Available(wallet)) {
        return NoBalance;
      }
      if !confirmed {
        return Cancelled;
      }
      var amount := wallet.value.available.value;
      r := if withdrawOk then Withdrawn(amount) else WithdrawFailed(amount);
    }
  }

  /** Before the first load, and after a load that sent no wallet, a payout
      request is refused. */
  method EmptyWalletRefuses(payouts: ListBody<PayoutItem>) returns (before: Request, after: Request)
    ensures before == NoBalance && after == NoBalance
  {
    var s := new Screen();
    before := s.RequestPayout(true, true);
    s.LoadData(Loaded(None, payouts));
    after := s.RequestPayout(true, true);
  }

  /** A withdrawal followed by the reload shows the backend's new balance. */
  method WithdrawThenReload(w: Wallet, w': Wallet, payouts: ListBody<PayoutItem>) returns (r: Request, shown: nat)
    requires Truthy(w.available)
    ensures r == Withdrawn(w.available.value)
    ensures shown == ShownBalance(Some(w'))
  {
    var s := new Screen();
    s.LoadData(Loaded(Some(w), payouts));
    r := s.RequestPayout(true, true);
    s.LoadData(Loaded(Some(w'), payouts));
    shown := ShownBalance(s.wallet);
  }
}
