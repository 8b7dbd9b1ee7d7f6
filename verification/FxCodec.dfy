/** Effect settings as JSON (effects.rs): strict about keys and types, lenient about range. */
module FxCodec {
  import opened Wrappers
  import opened Model
  import opened Numbers
  import opened Records

  const FX_KEYS := {
    "lowcut", "gate", "gate_thresh", "comp", "comp_thresh", "comp_ratio",
    "eq_low", "eq_mid", "eq_high", "delay_ms", "mono"}

  function TakeLowcut(fields: Fields): Result<int> {
    var n :- TakeNumber(fields, "lowcut", 0.0);
    if n == 0.0 then Ok(0) else if n == 80.0 then Ok(80) else if n == 120.0 then Ok(120) else Err(Invalid)
  }

  datatype Tone = Tone(eqLow: real, eqMid: real, eqHigh: real, delayMs: real)

  function TakeTone(fields: Fields): Result<Tone> {
    var low :- TakeNumber(fields, "eq_low", 0.0);
    var mid :- TakeNumber(fields, "eq_mid", 0.0);
    var high :- TakeNumber(fields, "eq_high", 0.0);
    var delay :- TakeNumber(fields, "delay_ms", 0.0);
    Ok(Tone(Clamp(low, -12.0, 12.0), Clamp(mid, -12.0, 12.0), Clamp(high, -12.0, 12.0), Clamp(delay, 0.0, 500.0)))
  }

  datatype Dynamics = Dynamics(gate: bool, gateThresh: real, comp: bool, compThresh: real, compRatio: real)

  function TakeDynamics(fields: Fields): Result<Dynamics> {
    var gate :- TakeBool(fields, "gate", false);
    var gateThresh :- TakeNumber(fields, "gate_thresh", -50.0);
    var comp :- TakeBool(fields, "comp", false);
    var compThresh :- TakeNumber(fields, "comp_thresh", -18.0);
    var compRatio :- TakeNumber(fields, "comp_ratio", 3.0);
    Ok(Dynamics(gate, Clamp(gateThresh, -70.0, -20.0), comp, Clamp(compThresh, -30.0, 0.0),
      Clamp(compRatio, 1.0, 10.0)))
  }

  /** `FxSettings::from_value` and its `validated`. */
  function DecodeFx(v: Json): Result<FxSettings> {
    var fields :- ObjectOf(v);
    if !(fields.Keys <= FX_KEYS) then Err(Invalid)
    else
      var lowcut :- TakeLowcut(fields);
      var d :- TakeDynamics(fields);
      var t :- TakeTone(fields);
      var mono :- TakeBool(fields, "mono", false);
      Ok(FxSettings(lowcut, d.gate, d.gateThresh, d.comp, d.compThresh, d.compRatio, t.eqLow, t.eqMid, t.eqHigh,
        t.delayMs, mono))
  }

  function FxFields(fx: FxSettings): Fields {
    map[
      "lowcut" := Integer(fx.lowcut), "gate" := Bool(fx.gate), "gate_thresh" := Number(fx.gateThresh),
      "comp" := Bool(fx.comp), "comp_thresh" := Number(fx.compThresh), "comp_ratio" := Number(fx.compRatio),
      "eq_low" := Number(fx.eqLow), "eq_mid" := Number(fx.eqMid), "eq_high" := Number(fx.eqHigh),
      "delay_ms" := Number(fx.delayMs), "mono" := Bool(fx.mono)]
  }

  function EncodeFx(fx: FxSettings): Json { Object(FxFields(fx)) }

  predicate GoodFx(fx: FxSettings) {
    && fx.lowcut in {0, 80, 120}
    && -70.0 <= fx.gateThresh <= -20.0 && -30.0 <= fx.compThresh <= 0.0 && 1.0 <= fx.compRatio <= 10.0
    && -12.0 <= fx.eqLow <= 12.0 && -12.0 <= fx.eqMid <= 12.0 && -12.0 <= fx.eqHigh <= 12.0
    && 0.0 <= fx.delayMs <= 500.0
  }

  lemma FxGood(v: Json)
    ensures DecodeFx(v).Ok? ==> GoodFx(DecodeFx(v).value)
  {}

  lemma FxFieldsHave(fx: FxSettings)
    ensures var f := FxFields(fx);
      && f.Keys == FX_KEYS
      && f["lowcut"] == Integer(fx.lowcut) && f["gate"] == Bool(fx.gate) && f["gate_thresh"] == Number(fx.gateThresh)
      && f["comp"] == Bool(fx.comp) && f["comp_thresh"] == Number(fx.compThresh)
        && f["comp_ratio"] == Number(fx.compRatio)
      && f["eq_low"] == Number(fx.eqLow) && f["eq_mid"] == Number(fx.eqMid) && f["eq_high"] == Number(fx.eqHigh)
      && f["delay_ms"] == Number(fx.delayMs) && f["mono"] == Bool(fx.mono)
  {}

  lemma FxBack(fx: FxSettings)
    requires GoodFx(fx)
    ensures DecodeFx(EncodeFx(fx)) == Ok(fx)
  {
    FxFieldsHave(fx);
    hide FxFields;
  }
}
