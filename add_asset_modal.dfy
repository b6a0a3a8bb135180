/** The "add asset" dialog: three dependent inserts (asset, holding, buy transaction) against the
    store, with early exits on the first two failures. */
module AddAsset {
  import opened Common

  /** The choices of the dialog's type select. */
  datatype AssetType = Crypto | Stock | Etf | Bond

  /** The `value` of each select item, the string stored in `assets.type`. */
  function TypeName(t: AssetType): (name: string)
    ensures name in {"crypto", "stock", "etf", "bond"}
  {
    match t
    case Crypto => "crypto"
    case Stock => "stock"
    case Etf => "etf"
    case Bond => "bond"
  }

  /** Different choices are stored as different strings, so the stored type names the choice. */
  lemma TypeNamesDistinct(a: AssetType, b: AssetType)
    ensures TypeName(a) == TypeName(b) <==> a == b
  {
  }

  /** The dialog's form state; the numeric fields keep the text typed in. */
  datatype AssetForm = AssetForm(
    symbol: string,
    name: string,
    assetType: AssetType,
    quantity: string,
    avgPrice: string,
    currentPrice: string)

  const EmptyForm := AssetForm("", "", Stock, "", "", "")

  /** The `assets` insert; the store adds the id. */
  datatype AssetInsert = AssetInsert(symbol: string, name: string, assetType: string, currentPrice: real, currency: string)

  datatype AssetRecord = AssetRecord(id: nat, asset: AssetInsert)

  datatype HoldingRecord = HoldingRecord(
    userId: string, assetId: nat, totalQuantity: real, averageCost: real, totalInvested: real)

  datatype TransactionRecord = TransactionRecord(
    userId: string, assetId: nat, txType: string, quantity: real, pricePerUnit: real, totalAmount: real)

  /** `toUpperCase` on one character, for the ASCII letters. */
  function UpperChar(c: char): (u: char)
    ensures !('a' <= u <= 'z')
    ensures 'a' <= c <= 'z' ==> u as int == c as int - 32
    ensures !('a' <= c <= 'z') ==> u == c
  {
    if 'a' <= c <= 'z' then (c as int - 32) as char else c
  }

  /** `toUpperCase` on a string, character by character. */
  function ToUpperCase(s: string): (upper: string)
    ensures |upper| == |s|
  {
    seq(|s|, i requires 0 <= i < |s| => UpperChar(s[i]))
  }

  /** Upper-casing keeps the length, turns every ASCII lower-case letter into its capital and keeps
      every other character. */
  lemma UpperCaseHasNoLowerCase(s: string)
    ensures |ToUpperCase(s)| == |s|
    ensures forall i :: 0 <= i < |s| && 'a' <= s[i] <= 'z' ==> ToUpperCase(s)[i] == (s[i] as int - 32) as char
    ensures forall i :: 0 <= i < |s| ==> !('a' <= ToUpperCase(s)[i] <= 'z')
    ensures forall i :: 0 <= i < |s| && !('a' <= s[i] <= 'z') ==> ToUpperCase(s)[i] == s[i]
  {
  }

  /** The asset row built from the form. */
  function NewAsset(f: AssetForm, currentPrice: real): (a: AssetInsert)
    ensures a.symbol == ToUpperCase(f.symbol) && a.name == f.name && a.assetType == TypeName(f.assetType)
    ensures a.currentPrice == currentPrice && a.currency == "USD"
  {
    AssetInsert(ToUpperCase(f.symbol), f.name, TypeName(f.assetType), currentPrice, "USD")
  }

  /** The holding row for the new asset. */
  function NewHolding(userId: string, assetId: nat, quantity: real, avgPrice: real): (h: HoldingRecord)
    ensures h.userId == userId && h.assetId == assetId
    ensures h.totalQuantity == quantity && h.averageCost == avgPrice
    ensures h.totalInvested == h.totalQuantity * h.averageCost
  {
    HoldingRecord(userId, assetId, quantity, avgPrice, quantity * avgPrice)
  }

  /** The transaction row recording the initial purchase. */
  function BuyTransaction(userId: string, assetId: nat, quantity: real, avgPrice: real): (t: TransactionRecord)
    ensures t.userId == userId && t.assetId == assetId && t.txType == "buy"
    ensures t.quantity == quantity && t.pricePerUnit == avgPrice
    ensures t.totalAmount == t.quantity * t.pricePerUnit
  {
    TransactionRecord(userId, assetId, "buy", quantity, avgPrice, quantity * avgPrice)
  }

  /** The holding and the transaction agree on owner, asset, unit price and total. */
  lemma HoldingMatchesTransaction(userId: string, assetId: nat, quantity: real, avgPrice: real)
    ensures var h := NewHolding(userId, assetId, quantity, avgPrice);
      var t := BuyTransaction(userId, assetId, quantity, avgPrice);
      h.userId == t.userId && h.assetId == t.assetId && h.totalQuantity == t.quantity &&
      h.averageCost == t.pricePerUnit && h.totalInvested == t.totalAmount
  {
  }

  /** The hosted store's three tables. `rejects(n)` is the error message the n-th write attempt
      (counting from 0) is refused with, if it is refused; a refused write changes no table. A new
      asset's id is the number of assets before it. */
  class Store {
    const rejects: nat -> Option<string>
    var writes: nat
    var assets: seq<AssetRecord>
    var holdings: seq<HoldingRecord>
    var transactions: seq<TransactionRecord>

    constructor (rejects: nat -> Option<string>)
      ensures this.rejects == rejects && writes == 0
      ensures assets == [] && holdings == [] && transactions == []
    {
      this.rejects := rejects;
      writes := 0;
      assets, holdings, transactions := [], [], [];
    }

    /** `insert(...).select().single()` on `assets`. */
    method InsertAsset(a: AssetInsert) returns (r: Result<AssetRecord>)
      modifies this
      ensures writes == old(writes) + 1
      ensures holdings == old(holdings) && transactions == old(transactions)
      ensures rejects(old(writes)).Some? ==> r == Failure(rejects(old(writes)).value) && assets == old(assets)
      ensures rejects(old(writes)).None? ==>
        r == Success(AssetRecord(|old(assets)|, a)) && assets == old(assets) + [r.value]
    {
      var e := rejects(writes);
      writes := writes + 1;
      if e.Some? {
        r := Failure(e.value);
      } else {
        r := Success(AssetRecord(|assets|, a));
        assets := assets + [r.value];
      }
    }

    /** `insert(...)` on `portfolio_holdings`; returns the error, if any. */
    method InsertHolding(h: HoldingRecord) returns (error: Option<string>)
      modifies this
      ensures writes == old(writes) + 1 && error == rejects(old(writes))
      ensures assets == old(assets) && transactions == old(transactions)
      ensures holdings == if error.Some? then old(holdings) else old(holdings) + [h]
    {
      error := rejects(writes);
      writes := writes + 1;
      if error.None? {
        holdings := holdings + [h];
      }
    }

    /** `insert(...)` on `transactions`; returns the error, if any. */
    method InsertTransaction(t: TransactionRecord) returns (error: Option<string>)
      modifies this
      ensures writes == old(writes) + 1 && error == rejects(old(writes))
      ensures assets == old(assets) && holdings == old(holdings)
      ensures transactions == if error.Some? then old(transactions) else old(transactions) + [t]
    {
      error := rejects(writes);
      writes := writes + 1;
      if error.None? {
        transactions := transactions + [t];
      }
    }
  }

  /** The dialog's state. `alerts` are the messages shown with `alert`, `assetAddedCalls` the
      number of times the `onAssetAdded` callback has run. */
  class AddAssetModal {
    const userId: string
    var open: bool
    var loading: bool
    var form: AssetForm
    var alerts: seq<string>
    var assetAddedCalls: nat

    constructor (userId: string)
      ensures this.userId == userId && !open && !loading && form == EmptyForm
      ensures alerts == [] && assetAddedCalls == 0
    {
      this.userId := userId;
      open, loading, form := false, false, EmptyForm;
      alerts, assetAddedCalls := [], 0;
    }

    /** `handleSubmit`. The form's numeric inputs are required number fields, so the browser only
        submits text that `parseFloat` reads as a number. */
    method HandleSubmit(store: Store, parseFloat: Parser)
      requires parseFloat(form.quantity).Some? && parseFloat(form.avgPrice).Some? && parseFloat(form.currentPrice).Some?
      modifies this, store
      ensures !loading
      ensures store.writes == old(store.writes) + (if store.rejects(old(store.writes)).Some? then 1
                                                   else if store.rejects(old(store.writes) + 1).Some? then 2 else 3)
      // the asset insert is refused: nothing else is written and the form stays
      ensures var n := old(store.writes); store.rejects(n).Some? ==>
        store.assets == old(store.assets) && store.holdings == old(store.holdings) &&
        store.transactions == old(store.transactions) &&
        alerts == old(alerts) + ["Error: " + store.rejects(n).value] &&
        form == old(form) && open == old(open) && assetAddedCalls == old(assetAddedCalls)
      // the asset is stored under a fresh id
      ensures var n := old(store.writes); store.rejects(n).None? ==>
        store.assets == old(store.assets) +
          [AssetRecord(|old(store.assets)|, NewAsset(old(form), parseFloat(old(form).currentPrice).value))]
      // the holding insert is refused: no transaction, no callback, the form stays
      ensures var n := old(store.writes); store.rejects(n).None? && store.rejects(n + 1).Some? ==>
        store.holdings == old(store.holdings) && store.transactions == old(store.transactions) &&
        alerts == old(alerts) + ["Error: " + store.rejects(n + 1).value] &&
        form == old(form) && open == old(open) && assetAddedCalls == old(assetAddedCalls)
      // both succeed: holding and transaction reference the new asset, whatever becomes of the
      // transaction the form resets, the dialog closes and the callback runs once
      ensures var n := old(store.writes); store.rejects(n).None? && store.rejects(n + 1).None? ==>
        var id := |old(store.assets)|;
        var q := parseFloat(old(form).quantity).value;
        var p := parseFloat(old(form).avgPrice).value;
        store.holdings == old(store.holdings) + [NewHolding(userId, id, q, p)] &&
        store.transactions == old(store.transactions) +
          (if store.rejects(n + 2).None? then [BuyTransaction(userId, id, q, p)] else []) &&
        alerts == old(alerts) && form == EmptyForm && !open && assetAddedCalls == old(assetAddedCalls) + 1
    {
      loading := true;
      ghost var n := store.writes;
      var asset := store.InsertAsset(NewAsset(form, parseFloat(form.currentPrice).value));
      if asset.Failure? {
        assert store.rejects(n).Some?;
        alerts := alerts + ["Error: " + asset.error];
        loading := false;
        return;
      }
      var quantity := parseFloat(form.quantity).value;
      var avgPrice := parseFloat(form.avgPrice).value;
      var holdingError := store.InsertHolding(NewHolding(userId, asset.value.id, quantity, avgPrice));
      if holdingError.Some? {
        assert store.rejects(n).None? && store.rejects(n + 1).Some?;
        alerts := alerts + ["Error: " + holdingError.value];
        loading := false;
        return;
      }
      var _ := store.InsertTransaction(BuyTransaction(userId, asset.value.id, quantity, avgPrice));
      assert store.rejects(n).None? && store.rejects(n + 1).None?;
      form := EmptyForm;
      open := false;
      assetAddedCalls := assetAddedCalls + 1;
      loading := false;
    }
  }
}
