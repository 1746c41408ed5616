/**
 * `PositionRegistry` (position_registry.py): the open positions keyed by symbol, in the
 * insertion order of the Python dict, and the per-symbol cooldown ends. The clock is `now`.
 */
module Registry {
  import opened Common

  /** The info dict a caller passes to `open`; `notional` may be absent. */
  datatype PositionInfo = PositionInfo(
    notional: Option<real>, qty: real, side: string, entryPrice: real,
    entryTime: real, lastUpdate: real)

  predicate NoDuplicates(s: seq<string>) {
    forall i, j :: 0 <= i < j < |s| ==> s[i] != s[j]
  }

  /** The order with one key taken out (a dict deletion). */
  function RemoveKey(s: seq<string>, k: string): (r: seq<string>)
    ensures forall x :: x in r <==> x in s && x != k
    ensures NoDuplicates(s) ==> NoDuplicates(r)
    ensures k !in s ==> r == s
    decreases |s|
  {
    if |s| == 0 then []
    else
      var rest := RemoveKey(s[..|s| - 1], k);
      assert forall x :: x in s <==> x in s[..|s| - 1] || x == s[|s| - 1];
      if s[|s| - 1] == k then rest
      else
        assert NoDuplicates(s) ==> s[|s| - 1] !in s[..|s| - 1];
        rest + [s[|s| - 1]]
  }

  class PositionRegistry {
    var order: seq<string>
    var open: map<string, PositionInfo>
    var cooldowns: map<string, real>

    ghost predicate Valid()
      reads this
    {
      NoDuplicates(order) && (forall s :: s in order <==> s in open)
    }

    constructor ()
      ensures Valid()
      ensures order == [] && open == map[] && cooldowns == map[]
    {
      order := [];
      open := map[];
      cooldowns := map[];
    }

    /** `list_open`: the stored infos, one per open symbol, in insertion order. */
    function ListOpen(): (r: seq<PositionInfo>)
      reads this
      requires Valid()
      ensures |r| == |order|
      ensures forall i :: 0 <= i < |order| ==> r[i] == open[order[i]]
      ensures forall s :: s in open ==> open[s] in r
    {
      var o, m := order, open;
      assert forall i :: 0 <= i < |o| ==> o[i] in m;
      var r := seq(|o|, i requires 0 <= i < |o| && o[i] in m => m[o[i]]);
      forall s | s in open ensures open[s] in r {
        var i :| 0 <= i < |order| && order[i] == s;
        assert r[i] == open[s];
      }
      r
    }

    /** `symbol_exposure`: the stored notional, or 0.0 when the symbol is not open or has none. */
    function SymbolExposure(symbol: string): (e: real)
      reads this
      ensures symbol !in open ==> e == 0.0
      ensures symbol in open && open[symbol].notional.Some? ==> e == open[symbol].notional.value
      ensures symbol in open && open[symbol].notional.None? ==> e == 0.0
    {
      if symbol in open then open[symbol].notional.GetOr(0.0) else 0.0
    }

    function CooldownOf(symbol: string): real
      reads this
    {
      if symbol in cooldowns then cooldowns[symbol] else 0.0
    }

    /** `can_open`: not already open and not cooling down. */
    function CanOpen(symbol: string, now: real): (b: bool)
      reads this
      ensures symbol in open ==> !b
      ensures symbol in cooldowns && now < cooldowns[symbol] ==> !b
      ensures b <==> symbol !in open && !(now < CooldownOf(symbol))
    {
      if symbol in open then false
      else if now < CooldownOf(symbol) then false
      else true
    }

    /** `open`: store a copy of info stamped with entry_time = last_update = now. */
    method Open(symbol: string, info: PositionInfo, now: real)
      requires Valid()
      modifies this
      ensures Valid()
      ensures open == old(open)[symbol := info.(entryTime := now, lastUpdate := now)]
      ensures symbol in old(open) ==> order == old(order)
      ensures symbol !in old(open) ==> order == old(order) + [symbol]
      ensures cooldowns == old(cooldowns)
    {
      if symbol !in open {
        order := order + [symbol];
      }
      open := open[symbol := info.(entryTime := now, lastUpdate := now)];
    }

    /**
     * `close`: forget the position if there is one; a positive cooldown sets the end to
     * now + secs, replacing (possibly shortening) an earlier one.
     */
    method Close(symbol: string, cooldownSeconds: int, now: real)
      requires Valid()
      modifies this
      ensures Valid()
      ensures symbol !in open
      ensures open == old(open) - {symbol}
      ensures order == RemoveKey(old(order), symbol)
      ensures cooldownSeconds > 0 ==> cooldowns == old(cooldowns)[symbol := now + cooldownSeconds as real]
      ensures cooldownSeconds <= 0 ==> cooldowns == old(cooldowns)
    {
      if symbol in open {
        order := RemoveKey(order, symbol);
        open := open - {symbol};
      } else {
        assert open - {symbol} == open;
      }
      if cooldownSeconds > 0 {
        cooldowns := cooldowns[symbol := now + cooldownSeconds as real];
      }
    }

    /** `clear_all`: no open positions and no cooldowns. */
    method ClearAll()
      modifies this
      ensures Valid()
      ensures open == map[] && order == [] && cooldowns == map[]
    {
      open := map[];
      order := [];
      cooldowns := map[];
    }
  }

  /** A closed symbol with a cooldown cannot be reopened until the cooldown ends. */
  method CloseThenReopen(reg: PositionRegistry, symbol: string, now: real)
    requires reg.Valid()
    modifies reg
    ensures reg.Valid() && symbol !in reg.open
    ensures !reg.CanOpen(symbol, now + 59.0) && reg.CanOpen(symbol, now + 60.0)
  {
    reg.Close(symbol, 60, now);
  }
}
