/** Exit prices shared by the live protection code and the replay engines. */
module ExitPolicy {
  import opened Common

  const TP1_FRACTION: real := 0.4
  const TP2_FRACTION: real := 0.4

  /** One risk distance beyond the entry, or half way to the final target if that is nearer. */
  function FirstTakeProfit(entry: real, stop: real, target: real, side: PositionSide): (r: Option<real>)
    ensures r.Some? <==> entry != stop && Tighter(side, target, entry)
    ensures r.Some? ==> Tighter(side, r.value, entry) && Tighter(side, target, r.value)
    ensures r.Some? ==> Abs(r.value - entry) ==
                        if Abs(target - entry) > Abs(entry - stop) then Abs(entry - stop) else Abs(target - entry) / 2.0
  {
    var risk := Abs(entry - stop);
    if risk <= 0.0 || !Tighter(side, target, entry) then None
    else
      var mechanical := entry + Direction(side) * risk;
      Some(if Tighter(side, target, mechanical) then mechanical else entry + (target - entry) / 2.0)
  }

  /** The entry, and the round trip's fees in the direction of profit. */
  function BreakevenStop(entry: real, side: PositionSide, roundTripFeeRate: real): (r: real)
    ensures r == if side.Long? then entry + entry * roundTripFeeRate else entry - entry * roundTripFeeRate
  {
    entry + Direction(side) * (entry * roundTripFeeRate)
  }

  /** The tighter one of the present stop and a distance behind the best price seen. */
  function TrailingStop(currentStop: real, side: PositionSide, highest: real, lowest: real, atr: real,
                        multiple: real): (r: real)
    ensures var level := if side.Long? then highest - atr * multiple else lowest + atr * multiple;
            && AtLeastAsTight(side, r, currentStop) && AtLeastAsTight(side, r, level)
            && (r == currentStop || r == level)
  {
    if side.Long? then Max(currentStop, highest - atr * multiple)
    else Min(currentStop, lowest + atr * multiple)
  }
}
