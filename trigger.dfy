/** Trigger selection and trigger-app configuration (trigger.rs): which
    trigger types an application may declare, the memory limit read from the
    environment, and the factors configuration. */
module Triggers {
  import opened Wrappers
  import opened Oci
  import opened Constants

  /** The `TYPE` of each trigger crate. Assumed: the trigger crates define
      these strings and are not part of this model. */
  const HTTP_TRIGGER_TYPE: string := "http"
  const REDIS_TRIGGER_TYPE: string := "redis"
  const SQS_TRIGGER_TYPE: string := "sqs"
  const MQTT_TRIGGER_TYPE: string := "mqtt"
  const COMMAND_TRIGGER_TYPE: string := "command"

  /** The trigger types the shim can run. */
  const SUPPORTED_TRIGGERS: set<string> :=
    {HTTP_TRIGGER_TYPE, REDIS_TRIGGER_TYPE, SQS_TRIGGER_TYPE, COMMAND_TRIGGER_TYPE, MQTT_TRIGGER_TYPE}

  /** `get_supported_triggers`: each declared trigger's type is checked in
      order and the first unsupported one is the error; otherwise the result
      is the set of declared types, duplicates collapsed. */
  function GetSupportedTriggers(triggers: seq<LockedTrigger>): (r: Result<set<string>, Error>)
    ensures r.Ok? <==> forall i :: 0 <= i < |triggers| ==> triggers[i].triggerType in SUPPORTED_TRIGGERS
    ensures r.Ok? ==> r.value <= SUPPORTED_TRIGGERS
    ensures r.Ok? ==> r.value == set i | 0 <= i < |triggers| :: triggers[i].triggerType
  {
    if |triggers| == 0 then Ok({})
    else
      var t := triggers[0].triggerType;
      if t !in SUPPORTED_TRIGGERS then Err(UnsupportedTrigger(t))
      else
        match GetSupportedTriggers(triggers[1..])
        case Err(e) => Err(e)
        case Ok(rest) =>
          assert forall i :: 0 < i < |triggers| ==> triggers[i] == triggers[1..][i - 1];
          Ok({t} + rest)
  }

  /** A failed selection names the first declared trigger whose type is not
      supported. */
  lemma {:induction false} UnsupportedTriggerIsFirst(triggers: seq<LockedTrigger>)
    requires GetSupportedTriggers(triggers).Err?
    ensures exists i ::
      && 0 <= i < |triggers|
      && triggers[i].triggerType !in SUPPORTED_TRIGGERS
      && (forall k :: 0 <= k < i ==> triggers[k].triggerType in SUPPORTED_TRIGGERS)
      && GetSupportedTriggers(triggers).error == UnsupportedTrigger(triggers[i].triggerType)
  {
    if triggers[0].triggerType in SUPPORTED_TRIGGERS {
      var tail := triggers[1..];
      UnsupportedTriggerIsFirst(tail);
      var i :| 0 <= i < |tail| && tail[i].triggerType !in SUPPORTED_TRIGGERS
        && (forall k :: 0 <= k < i ==> tail[k].triggerType in SUPPORTED_TRIGGERS)
        && GetSupportedTriggers(tail).error == UnsupportedTrigger(tail[i].triggerType);
      assert forall k :: 0 < k <= i ==> triggers[k] == tail[k - 1];
      assert triggers[i + 1] == tail[i];
    }
  }

  /** Duplicate declarations collapse: http, http, redis selects {http, redis};
      no triggers selects nothing. */
  lemma DuplicateTriggersCollapse()
    ensures GetSupportedTriggers([
      LockedTrigger("a", HTTP_TRIGGER_TYPE),
      LockedTrigger("b", HTTP_TRIGGER_TYPE),
      LockedTrigger("c", REDIS_TRIGGER_TYPE)]) == Ok({HTTP_TRIGGER_TYPE, REDIS_TRIGGER_TYPE})
    ensures GetSupportedTriggers([]) == Ok({})
  {
    var ts := [
      LockedTrigger("a", HTTP_TRIGGER_TYPE),
      LockedTrigger("b", HTTP_TRIGGER_TYPE),
      LockedTrigger("c", REDIS_TRIGGER_TYPE)];
    assert forall i :: 0 <= i < |ts| ==> ts[i].triggerType in SUPPORTED_TRIGGERS;
    var declared := set i | 0 <= i < |ts| :: ts[i].triggerType;
    assert ts[0].triggerType in declared && ts[2].triggerType in declared;
    assert declared == {HTTP_TRIGGER_TYPE, REDIS_TRIGGER_TYPE};
  }

  /** Largest value plus one of a `usize` on the 64-bit hosts the shim runs on. */
  const USIZE_LIMIT: nat := 0x1_0000_0000_0000_0000

  predicate IsDigit(c: char) {
    '0' <= c <= '9'
  }

  predicate AllDigits(s: string) {
    forall i :: 0 <= i < |s| ==> IsDigit(s[i])
  }

  /** The number a string of decimal digits denotes, leading zeros allowed. */
  function DigitsValue(s: string): nat
    requires AllDigits(s)
  {
    if |s| == 0 then 0
    else DigitsValue(s[..|s| - 1]) * 10 + (s[|s| - 1] as int - '0' as int)
  }

  /** What follows the optional leading '+' of a number. */
  function Unsigned(s: string): (ds: string)
    ensures s == ds || s == "+" + ds
  {
    if |s| > 0 && s[0] == '+' then s[1..] else s
  }

  /** `str::parse::<usize>`: an optional leading '+', then one or more
      decimal digits, denoting a value below `USIZE_LIMIT`. */
  function ParseUsize(s: string): (r: Option<nat>)
    ensures r.Some? ==> r.value < USIZE_LIMIT
    ensures r.Some? ==> exists ds ::
      (s == ds || s == "+" + ds) && |ds| > 0 && AllDigits(ds) && DigitsValue(ds) == r.value
  {
    if |s| == 0 then None
    else
      var digits := Unsigned(s);
      if |digits| == 0 || !AllDigits(digits) then None
      else
        var v := DigitsValue(digits);
        if v < USIZE_LIMIT then Some(v) else None
  }

  /** Every non-empty run of decimal digits, with or without a leading '+',
      parses to the number it denotes, unless that number overflows `usize`. */
  lemma ParseUsizeAccepts(ds: string)
    requires |ds| > 0 && AllDigits(ds)
    ensures ParseUsize(ds) == if DigitsValue(ds) < USIZE_LIMIT then Some(DigitsValue(ds)) else None
    ensures ParseUsize("+" + ds) == if DigitsValue(ds) < USIZE_LIMIT then Some(DigitsValue(ds)) else None
  {
    assert IsDigit(ds[0]);
    assert ("+" + ds)[1..] == ds;
  }

  /** The canonical decimal spelling of `n`. */
  function Decimal(n: nat): (s: string)
    ensures |s| > 0 && AllDigits(s)
  {
    if n < 10 then [('0' as int + n) as char]
    else Decimal(n / 10) + [('0' as int + n % 10) as char]
  }

  lemma {:induction false} DecimalValue(n: nat)
    ensures DigitsValue(Decimal(n)) == n
  {
    if n >= 10 {
      DecimalValue(n / 10);
      var s := Decimal(n);
      assert s[..|s| - 1] == Decimal(n / 10);
    }
  }

  /** Every `usize`, spelled in decimal with or without a '+', parses back
      to itself. */
  lemma ParseUsizeRoundTrip(n: nat)
    requires n < USIZE_LIMIT
    ensures ParseUsize(Decimal(n)) == Some(n)
    ensures ParseUsize("+" + Decimal(n)) == Some(n)
  {
    DecimalValue(n);
    ParseUsizeAccepts(Decimal(n));
  }

  /** What `parse` refuses: the empty string, a lone '+', a character that is
      not a digit after the optional '+', and digits (after the optional '+')
      denoting a value too large for `usize`. */
  lemma ParseUsizeRejects(s: string)
    ensures |s| == 0 || s == "+" ==> ParseUsize(s).None?
    ensures forall i :: 0 < i < |s| && !IsDigit(s[i]) ==> ParseUsize(s).None?
    ensures |s| > 0 && s[0] != '+' && !IsDigit(s[0]) ==> ParseUsize(s).None?
    ensures var ds := Unsigned(s);
      |ds| > 0 && AllDigits(ds) && DigitsValue(ds) >= USIZE_LIMIT ==> ParseUsize(s).None?
  {
    if |s| > 0 {
      var digits := Unsigned(s);
      forall i | 0 < i < |s| && !IsDigit(s[i]) ensures ParseUsize(s).None? {
        if s[0] == '+' {
          assert digits[i - 1] == s[i];
        } else {
          assert digits[i] == s[i];
        }
      }
    }
  }

  /** The trigger-app arguments the builder runs with: all defaults, or the
      defaults with `max_instance_memory` set. */
  datatype TriggerAppArgs = Defaults | WithMaxInstanceMemory(maxInstanceMemory: Option<nat>)

  /** The `SPIN_MAX_INSTANCE_MEMORY` rule of `run`, given the variable's
      value if it is set. */
  function BuilderArgs(spinMaxInstanceMemory: Option<string>): (r: TriggerAppArgs)
    ensures spinMaxInstanceMemory.None? <==> r == Defaults
    ensures forall s :: spinMaxInstanceMemory == Some(s) ==> r == WithMaxInstanceMemory(ParseUsize(s))
    ensures forall n: nat :: n < USIZE_LIMIT && spinMaxInstanceMemory == Some(Decimal(n)) ==>
      r == WithMaxInstanceMemory(Some(n))
    ensures spinMaxInstanceMemory == Some("") ==> r == WithMaxInstanceMemory(None)
  {
    match spinMaxInstanceMemory
    case None => Defaults
    case Some(limit) =>
      ParseUsizeRejects(limit);
      ParseUsizeRoundTripAll();
      WithMaxInstanceMemory(ParseUsize(limit))
  }

  lemma ParseUsizeRoundTripAll()
    ensures forall n: nat :: n < USIZE_LIMIT ==> ParseUsize(Decimal(n)) == Some(n)
  {
    forall n: nat | n < USIZE_LIMIT ensures ParseUsize(Decimal(n)) == Some(n) {
      ParseUsizeRoundTrip(n);
    }
  }

  /** `UserProvidedPath` of the trigger CLI. */
  datatype UserProvidedPath = Default | Unset | Provided(path: string)

  /** The fields of `FactorsConfig` that `factors_config` sets; the others
      keep their defaults. */
  datatype FactorsConfig = FactorsConfig(
    workingDir: string,
    runtimeConfigFile: Option<string>,
    localAppDir: Option<string>,
    logDir: UserProvidedPath)

  /** `factors_config`, given whether `/runtime-config.toml` exists. */
  function FactorsConfigFor(runtimeConfigExists: bool): (c: FactorsConfig)
    ensures c.runtimeConfigFile.Some? <==> runtimeConfigExists
    ensures c.runtimeConfigFile.Some? ==> c.runtimeConfigFile.value == RUNTIME_CONFIG_PATH
    ensures c.workingDir == SPIN_TRIGGER_WORKING_DIR && c.localAppDir == Some(c.workingDir)
    ensures c.logDir == Unset
  {
    FactorsConfig(
      SPIN_TRIGGER_WORKING_DIR,
      if runtimeConfigExists then Some(RUNTIME_CONFIG_PATH) else None,
      Some(SPIN_TRIGGER_WORKING_DIR),
      Unset)
  }
}
