/** The quote client and the price refresh: Yahoo Finance quotes in USD, the "dolar blue" sell
    rate, and their product in ARS. */
module Prices {
  import opened Common

  /** The outbound GETs: the dolarapi rate, or a Yahoo Finance chart for a symbol. */
  datatype Request = RateRequest | QuoteRequest(symbol: string)

  /** What a GET ends in. `Thrown` covers a network failure and a body that is not JSON; `NotOk` a
      non-2xx status; `Ok` a parsed body, carrying the number at the path read
      (`chart.result[0].meta.regularMarketPrice` or `venta`), `None` when any step is missing. */
  datatype Reply = Thrown | NotOk | Ok(field: Option<real>)

  /** The result of `getStockPriceARS`. */
  datatype ArsQuote = ArsQuote(priceUSD: Option<real>, priceARS: Option<real>, dolarBlue: Option<real>)

  /** JavaScript truthiness of a `number | null`: present and not zero. */
  predicate Truthy(x: Option<real>)
    ensures x.None? ==> !Truthy(x)
    ensures x == Some(0.0) ==> !Truthy(x)
    ensures x.Some? && x.value != 0.0 ==> Truthy(x)
  {
    x.Some? && x.value != 0.0
  }

  /** The reply rules of both fetch wrappers: a throw or a bad status gives `null`, and so does a
      missing or zero number (`value || null`). */
  function ValueOrNull(reply: Reply): (r: Option<real>)
    ensures r.Some? <==> reply.Ok? && Truthy(reply.field)
    ensures r.Some? ==> r.value == reply.field.value
    ensures r.Some? ==> r.value != 0.0
  {
    match reply
    case Ok(f) => if Truthy(f) then f else None
    case _ => None
  }

  /** `priceUSD && dolarBlue ? priceUSD * dolarBlue : null`. */
  function ToArs(priceUSD: Option<real>, dolarBlue: Option<real>): (r: Option<real>)
    ensures r.Some? <==> Truthy(priceUSD) && Truthy(dolarBlue)
    ensures r.Some? ==> r.value == priceUSD.value * dolarBlue.value
    ensures dolarBlue.None? ==> r.None?
  {
    if Truthy(priceUSD) && Truthy(dolarBlue) then Some(priceUSD.value * dolarBlue.value) else None
  }

  /** The combination step of `getStockPriceARS`: both fetched values are handed back unchanged
      beside their product. It takes the two values only, so it cannot depend on which fetch
      finished first. */
  function CombineArs(priceUSD: Option<real>, dolarBlue: Option<real>): (q: ArsQuote)
    ensures q.priceUSD == priceUSD && q.dolarBlue == dolarBlue
    ensures q.priceARS.Some? <==> Truthy(priceUSD) && Truthy(dolarBlue)
    ensures q.priceARS.Some? ==> q.priceARS.value == priceUSD.value * dolarBlue.value
  {
    ArsQuote(priceUSD, ToArs(priceUSD, dolarBlue), dolarBlue)
  }

  /** A JavaScript `Map` from symbol to price: its entries, and its keys in the order they were
      first inserted, which is the order the `Map` iterates them in. */
  datatype PriceMap = PriceMap(order: seq<string>, entries: map<string, Option<real>>)

  const EmptyPriceMap := PriceMap([], map[])

  /** `m.set(k, v)`: a new key goes to the end of the order, an existing one keeps its place and
      takes the new value. */
  function MapSet(m: PriceMap, k: string, v: Option<real>): (r: PriceMap)
    ensures r.entries == m.entries[k := v]
    ensures k in m.entries ==> r.order == m.order
    ensures k !in m.entries ==> r.order == m.order + [k]
  {
    PriceMap(if k in m.entries then m.order else m.order + [k], m.entries[k := v])
  }

  /** `new Map()` followed by `results.set(keys[i], values[i])` for each i in order. */
  function Tabulate(keys: seq<string>, values: seq<Option<real>>): (m: PriceMap)
    requires |keys| == |values|
    ensures keys != [] ==> keys[|keys| - 1] in m.entries && m.entries[keys[|keys| - 1]] == values[|keys| - 1]
  {
    if keys == [] then EmptyPriceMap
    else MapSet(Tabulate(keys[..|keys| - 1], values[..|keys| - 1]), keys[|keys| - 1], values[|keys| - 1])
  }

  /** The position of the first occurrence of `k` in `s`. */
  function FirstIndex(s: seq<string>, k: string): (i: nat)
    requires k in s
    ensures i < |s| && s[i] == k
    ensures forall j :: 0 <= j < i ==> s[j] != k
  {
    if s[0] == k then 0 else 1 + FirstIndex(s[1..], k)
  }

  /** The requests a loop over `symbols` issues, one quote each, in order. */
  function QuoteRequests(symbols: seq<string>): (rs: seq<Request>)
    ensures |rs| == |symbols|
    ensures forall i :: 0 <= i < |symbols| ==> rs[i] == QuoteRequest(symbols[i])
    ensures RateRequest !in rs
  {
    seq(|symbols|, i requires 0 <= i < |symbols| => QuoteRequest(symbols[i]))
  }

  /** The ARS prices a refresh computes, when the i-th symbol's quote is answered by request
      number `start + i` and the rate is `dolarBlue`. */
  function ArsPrices(respond: (nat, Request) -> Reply, start: nat, symbols: seq<string>, dolarBlue: Option<real>)
    : (prices: seq<Option<real>>)
    ensures |prices| == |symbols|
  {
    seq(|symbols|, i requires 0 <= i < |symbols| =>
      ToArs(ValueOrNull(respond(start + i, QuoteRequest(symbols[i]))), dolarBlue))
  }

  /** Each refreshed price is the ARS conversion of its own quote reply. */
  lemma ArsPricesAt(respond: (nat, Request) -> Reply, start: nat, symbols: seq<string>, dolarBlue: Option<real>)
    ensures forall i :: 0 <= i < |symbols| ==>
      ArsPrices(respond, start, symbols, dolarBlue)[i] == ToArs(ValueOrNull(respond(start + i, QuoteRequest(symbols[i]))), dolarBlue)
  {
  }

  /** The remote services, seen from the browser. `respond(n, r)` is the reply the n-th request
      (counting from 0) gets when it is `r`, so the same symbol may be answered differently at
      different times; `requests` is every GET issued so far. */
  class Network {
    const respond: (nat, Request) -> Reply
    var requests: seq<Request>

    constructor (respond: (nat, Request) -> Reply)
      ensures this.respond == respond && requests == []
    {
      this.respond := respond;
      requests := [];
    }

    /** One `fetch`. */
    method Fetch(r: Request) returns (reply: Reply)
      modifies this
      ensures requests == old(requests) + [r]
      ensures reply == respond(|old(requests)|, r)
    {
      reply := respond(|requests|, r);
      requests := requests + [r];
    }
  }

  /** `getStockPriceUSD`: one quote request; `null` unless the reply carries a non-zero price. */
  method GetStockPriceUSD(net: Network, symbol: string) returns (price: Option<real>)
    modifies net
    ensures net.requests == old(net.requests) + [QuoteRequest(symbol)]
    ensures price == ValueOrNull(net.respond(|old(net.requests)|, QuoteRequest(symbol)))
  {
    var reply := net.Fetch(QuoteRequest(symbol));
    price := ValueOrNull(reply);
  }

  /** `getDolarBlue`: one rate request; `null` unless the reply carries a non-zero `venta`. */
  method GetDolarBlue(net: Network) returns (rate: Option<real>)
    modifies net
    ensures net.requests == old(net.requests) + [RateRequest]
    ensures rate == ValueOrNull(net.respond(|old(net.requests)|, RateRequest))
  {
    var reply := net.Fetch(RateRequest);
    rate := ValueOrNull(reply);
  }

  /** `getStockPriceARS`: both requests go out together (quote first, as listed in the
      `Promise.all` array) and the results are combined by position. */
  method GetStockPriceARS(net: Network, symbol: string) returns (q: ArsQuote)
    modifies net
    ensures net.requests == old(net.requests) + [QuoteRequest(symbol), RateRequest]
    ensures q == CombineArs(ValueOrNull(net.respond(|old(net.requests)|, QuoteRequest(symbol))),
                            ValueOrNull(net.respond(|old(net.requests)| + 1, RateRequest)))
  {
    var priceUSD := GetStockPriceUSD(net, symbol);
    var dolarBlue := GetDolarBlue(net);
    q := CombineArs(priceUSD, dolarBlue);
  }

  /** `updateAllPrices`: the rate is fetched once, then each symbol's quote in input order, and
      each symbol's ARS price is written into the result map. */
  method UpdateAllPrices(net: Network, symbols: seq<string>) returns (results: PriceMap)
    modifies net
    ensures net.requests == old(net.requests) + [RateRequest] + QuoteRequests(symbols)
    ensures var n := |old(net.requests)|;
      results == Tabulate(symbols, ArsPrices(net.respond, n + 1, symbols, ValueOrNull(net.respond(n, RateRequest))))
  {
    ghost var earlier := net.requests;
    ghost var n := |earlier|;
    ghost var respond := net.respond;
    var dolarBlue := GetDolarBlue(net);
    results := EmptyPriceMap;
    ghost var prices: seq<Option<real>> := [];
    for i := 0 to |symbols|
      invariant net.requests == earlier + [RateRequest] + QuoteRequests(symbols[..i])
      invariant |net.requests| == n + 1 + i
      invariant prices == ArsPrices(respond, n + 1, symbols[..i], dolarBlue)
      invariant results == Tabulate(symbols[..i], prices)
    {
      ghost var sent := net.requests;
      var priceUSD := GetStockPriceUSD(net, symbols[i]);
      var priceARS := ToArs(priceUSD, dolarBlue);
      results := MapSet(results, symbols[i], priceARS);
      RefreshStep(respond, n + 1, symbols, dolarBlue, i, prices, priceARS, earlier, sent);
      prices := prices + [priceARS];
    }
    assert symbols[..|symbols|] == symbols;
  }

  /** One turn of the refresh loop: the requests and the result each grow by the i-th symbol. */
  lemma RefreshStep(respond: (nat, Request) -> Reply, start: nat, symbols: seq<string>, dolarBlue: Option<real>,
                    i: nat, prices: seq<Option<real>>, price: Option<real>, earlier: seq<Request>, sent: seq<Request>)
    requires i < |symbols|
    requires sent == earlier + [RateRequest] + QuoteRequests(symbols[..i])
    requires prices == ArsPrices(respond, start, symbols[..i], dolarBlue)
    requires price == ToArs(ValueOrNull(respond(start + i, QuoteRequest(symbols[i]))), dolarBlue)
    ensures sent + [QuoteRequest(symbols[i])] == earlier + [RateRequest] + QuoteRequests(symbols[..i + 1])
    ensures prices + [price] == ArsPrices(respond, start, symbols[..i + 1], dolarBlue)
    ensures Tabulate(symbols[..i + 1], prices + [price]) == MapSet(Tabulate(symbols[..i], prices), symbols[i], price)
  {
    assert symbols[..i + 1][..i] == symbols[..i];
    assert QuoteRequests(symbols[..i + 1]) == QuoteRequests(symbols[..i]) + [QuoteRequest(symbols[i])];
    assert (prices + [price])[..i] == prices;
  }

  /** The map's keys are exactly the symbols. */
  lemma {:induction false} TabulateKeys(keys: seq<string>, values: seq<Option<real>>)
    requires |keys| == |values|
    ensures Tabulate(keys, values).entries.Keys == set i | 0 <= i < |keys| :: keys[i]
  {
    if keys != [] {
      var n := |keys| - 1;
      TabulateKeys(keys[..n], values[..n]);
      var before := set i | 0 <= i < n :: keys[..n][i];
      var after := set i | 0 <= i < |keys| :: keys[i];
      assert after == before + {keys[n]} by {
        forall k | k in after ensures k in before + {keys[n]} {
          var i :| 0 <= i < |keys| && keys[i] == k;
          if i < n { assert keys[..n][i] == k; }
        }
        forall k | k in before ensures k in after {
          var i :| 0 <= i < n && keys[..n][i] == k;
          assert keys[i] == k;
        }
      }
    }
  }

  /** When a key occurs several times, the value written last is the one kept. */
  lemma {:induction false} TabulateLastWins(keys: seq<string>, values: seq<Option<real>>, j: nat)
    requires |keys| == |values| && j < |keys|
    requires forall i :: j < i < |keys| ==> keys[i] != keys[j]
    ensures keys[j] in Tabulate(keys, values).entries && Tabulate(keys, values).entries[keys[j]] == values[j]
  {
    var n := |keys| - 1;
    if j < n {
      TabulateLastWins(keys[..n], values[..n], j);
    }
  }

  /** Every value in the map is the one written for the last occurrence of its key. */
  lemma {:induction false} TabulateValueFromLast(keys: seq<string>, values: seq<Option<real>>, k: string)
    requires |keys| == |values|
    requires k in Tabulate(keys, values).entries
    ensures exists j :: 0 <= j < |keys| && keys[j] == k && Tabulate(keys, values).entries[k] == values[j] &&
                        forall i :: j < i < |keys| ==> keys[i] != k
  {
    var n := |keys| - 1;
    if keys[n] == k {
      assert Tabulate(keys, values).entries[k] == values[n];
    } else {
      TabulateValueFromLast(keys[..n], values[..n], k);
      var j :| 0 <= j < n && keys[..n][j] == k && Tabulate(keys[..n], values[..n]).entries[k] == values[..n][j] &&
               forall i :: j < i < n ==> keys[..n][i] != k;
      assert keys[j] == k && Tabulate(keys, values).entries[k] == values[j];
      forall i | j < i < |keys| ensures keys[i] != k {
        if i < n { assert keys[..n][i] == keys[i]; }
      }
    }
  }

  /** After a refresh the result holds one entry per distinct symbol and nothing else; each entry is
      the quote of the symbol's last occurrence times the rate, or `null` under the rule of `ToArs`. */
  lemma RefreshResult(respond: (nat, Request) -> Reply, start: nat, symbols: seq<string>, dolarBlue: Option<real>, j: nat)
    requires j < |symbols| && forall i :: j < i < |symbols| ==> symbols[i] != symbols[j]
    ensures var m := Tabulate(symbols, ArsPrices(respond, start, symbols, dolarBlue)).entries;
      m.Keys == (set i | 0 <= i < |symbols| :: symbols[i]) &&
      m[symbols[j]] == ToArs(ValueOrNull(respond(start + j, QuoteRequest(symbols[j]))), dolarBlue)
  {
    var prices := ArsPrices(respond, start, symbols, dolarBlue);
    TabulateKeys(symbols, prices);
    TabulateLastWins(symbols, prices, j);
    ArsPricesAt(respond, start, symbols, dolarBlue);
  }

  /** Without a rate every entry of the refresh result is `null`. */
  lemma NoRateAllNull(respond: (nat, Request) -> Reply, start: nat, symbols: seq<string>)
    ensures forall k :: k in Tabulate(symbols, ArsPrices(respond, start, symbols, None)).entries ==>
      Tabulate(symbols, ArsPrices(respond, start, symbols, None)).entries[k].None?
  {
    var prices := ArsPrices(respond, start, symbols, None);
    forall k | k in Tabulate(symbols, prices).entries ensures Tabulate(symbols, prices).entries[k].None? {
      TabulateValueFromLast(symbols, prices, k);
    }
  }

  /** The first occurrence of a key within a prefix is its first occurrence in the whole sequence. */
  lemma FirstIndexInPrefix(s: seq<string>, n: nat, k: string)
    requires n <= |s| && k in s[..n]
    ensures k in s && FirstIndex(s, k) == FirstIndex(s[..n], k)
  {
    var j := FirstIndex(s[..n], k);
    assert s[..n][j] == s[j];
  }

  /** A key first seen at position n has its first occurrence there. */
  lemma FirstIndexAtEnd(s: seq<string>, n: nat)
    requires n < |s| && s[n] !in s[..n]
    ensures FirstIndex(s, s[n]) == n
  {
  }

  /** The `Map`'s order holds exactly its keys, each taken from the inserted keys. */
  lemma {:induction false} TabulateOrderKeys(keys: seq<string>, values: seq<Option<real>>)
    requires |keys| == |values|
    ensures forall k :: k in Tabulate(keys, values).order <==> k in Tabulate(keys, values).entries
    ensures forall k :: k in Tabulate(keys, values).order ==> k in keys
  {
    if keys != [] {
      var n := |keys| - 1;
      TabulateOrderKeys(keys[..n], values[..n]);
      forall k | k in keys[..n] ensures k in keys {
        var i :| 0 <= i < n && keys[..n][i] == k;
        assert keys[i] == k;
      }
    }
  }

  /** The `Map`'s iteration order: the keys come in the order of their first occurrence among the
      inserted keys, so none appears twice. */
  lemma {:induction false} TabulateOrder(keys: seq<string>, values: seq<Option<real>>)
    requires |keys| == |values|
    ensures var m := Tabulate(keys, values);
      forall a :: 0 <= a < |m.order| ==> m.order[a] in keys
    ensures var m := Tabulate(keys, values);
      forall a, b :: 0 <= a < b < |m.order| ==> FirstIndex(keys, m.order[a]) < FirstIndex(keys, m.order[b])
    ensures var m := Tabulate(keys, values);
      forall a, b :: 0 <= a < b < |m.order| ==> m.order[a] != m.order[b]
  {
    TabulateOrderKeys(keys, values);
    if keys != [] {
      var n := |keys| - 1;
      TabulateOrder(keys[..n], values[..n]);
      TabulateOrderKeys(keys[..n], values[..n]);
      TabulateKeys(keys[..n], values[..n]);
      OrderStep(keys, n, Tabulate(keys[..n], values[..n]).order, Tabulate(keys[..n], values[..n]).entries,
                Tabulate(keys, values).order);
    }
  }

  /** The induction step of `TabulateOrder`, on the orders before and after the last insertion. */
  lemma OrderStep(keys: seq<string>, n: nat, prev: seq<string>, entries: map<string, Option<real>>, order: seq<string>)
    requires n == |keys| - 1
    requires forall k :: k in prev ==> k in keys[..n]
    requires forall k :: k in entries <==> k in keys[..n]
    requires forall a, b :: 0 <= a < b < |prev| ==> FirstIndex(keys[..n], prev[a]) < FirstIndex(keys[..n], prev[b])
    requires order == if keys[n] in entries then prev else prev + [keys[n]]
    ensures forall a :: 0 <= a < |order| ==> order[a] in keys
    ensures forall a, b :: 0 <= a < b < |order| ==> FirstIndex(keys, order[a]) < FirstIndex(keys, order[b])
    ensures forall a, b :: 0 <= a < b < |order| ==> order[a] != order[b]
  {
    forall a | 0 <= a < |prev|
      ensures prev[a] in keys && FirstIndex(keys, prev[a]) == FirstIndex(keys[..n], prev[a]) < n
    {
      FirstIndexInPrefix(keys, n, prev[a]);
    }
    if keys[n] in entries {
      assert order == prev;
    } else {
      FirstIndexAtEnd(keys, n);
      assert order == prev + [keys[n]];
      forall a, b | 0 <= a < b < |order| ensures FirstIndex(keys, order[a]) < FirstIndex(keys, order[b]) {
        if b == |prev| {
          assert order[b] == keys[n];
        } else {
          assert order[a] == prev[a] && order[b] == prev[b];
        }
      }
    }
  }

  /** The refresh result iterates each distinct symbol once, in the order of its first occurrence. */
  lemma RefreshOrder(respond: (nat, Request) -> Reply, start: nat, symbols: seq<string>, dolarBlue: Option<real>)
    ensures var m := Tabulate(symbols, ArsPrices(respond, start, symbols, dolarBlue));
      (forall k :: k in m.order <==> k in symbols) &&
      (forall a, b :: 0 <= a < b < |m.order| ==> m.order[a] != m.order[b]) &&
      (forall a, b :: 0 <= a < b < |m.order| ==> FirstIndex(symbols, m.order[a]) < FirstIndex(symbols, m.order[b]))
  {
    var prices := ArsPrices(respond, start, symbols, dolarBlue);
    TabulateOrder(symbols, prices);
    TabulateOrderKeys(symbols, prices);
    TabulateKeys(symbols, prices);
    var m := Tabulate(symbols, prices);
    forall k ensures k in m.order <==> k in symbols {
      if k in symbols {
        var i :| 0 <= i < |symbols| && symbols[i] == k;
      }
    }
  }
}
