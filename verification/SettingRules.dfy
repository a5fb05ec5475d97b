/** The backend's validation of a settings update: each value on its own, then the checks across fields. */
module SettingRules {
  import opened Options
  import Heating
  import Controller
  import ControllerPromises
  import ControllerRuns

  /** A stored setting; a number stands for the text it is stored as. */
  datatype Value = Num(x: real) | Text(s: string)

  /** What a request carries for one key: its stripped lower-case text, the number that reads as, or a JSON boolean. */
  datatype Raw = Raw(text: string, number: Option<real>, flag: Option<bool>)

  datatype Kind = Bool | Float | Int | Format

  datatype Rule = Rule(kind: Kind, min: Option<real>, max: Option<real>, adminOnly: bool)

  /** The allowlist, and the checks of the text formats (times, days, names, addresses, rates). */
  datatype Rules = Rules(table: map<string, Rule>, format: (string, Raw) -> Option<string>)

  predicate WithinLimits(rule: Rule, x: real) {
    (rule.min.Some? ==> x >= rule.min.value) && (rule.max.Some? ==> x <= rule.max.value)
  }

  function NormalizeNumber(rule: Rule, raw: Raw, whole: bool): Option<Value> {
    if raw.flag.Some? || raw.number.None? then None
    else
      var num := raw.number.value;
      if (whole && num != num.Floor as real) || !WithinLimits(rule, num) then None else Some(Num(num))
  }

  function Normalize(rules: Rules, key: string, raw: Raw): Option<Value>
    requires key in rules.table
  {
    var rule := rules.table[key];
    match rule.kind
    case Bool =>
      if raw.flag.Some? then Some(Text(if raw.flag.value then "1" else "0"))
      else if raw.text in ["1", "true", "on"] then Some(Text("1"))
      else if raw.text in ["0", "false", "off"] then Some(Text("0"))
      else None
    case Float => NormalizeNumber(rule, raw, false)
    case Int => NormalizeNumber(rule, raw, true)
    case Format =>
      if raw.flag.Some? || rules.format(key, raw).None? then None else Some(Text(rules.format(key, raw).value))
  }

  /** The texts a flag may be sent as. */
  predicate SaysOn(raw: Raw) { if raw.flag.Some? then raw.flag.value else raw.text in ["1", "true", "on"] }

  predicate SaysOff(raw: Raw) { if raw.flag.Some? then !raw.flag.value else raw.text in ["0", "false", "off"] }

  /** A flag is stored as what it says, a number as itself if it is within the limits and whole where it must be, and
      nothing else passes. */
  lemma NormalizedAsSent(rules: Rules, key: string, raw: Raw)
    requires key in rules.table && !rules.table[key].kind.Format?
    ensures var rule, n := rules.table[key], Normalize(rules, key, raw);
            if rule.kind.Bool? then
              && (n.Some? <==> SaysOn(raw) || SaysOff(raw)) && !(SaysOn(raw) && SaysOff(raw))
              && (n == Some(Text("1")) <==> SaysOn(raw)) && (n == Some(Text("0")) <==> SaysOff(raw))
            else
              && (n.Some? ==> raw.number.Some? && n == Some(Num(raw.number.value)))
              && (n.Some? <==>
                  && raw.flag.None? && raw.number.Some? && WithinLimits(rule, raw.number.value)
                  && (rule.kind.Int? ==> raw.number.value.Floor as real >= raw.number.value))
  {
    assert "1" != "0" && "true" != "false" && "on" != "off" && "1"[0] == '1' && "0"[0] == '0';
  }

  // ---- Keys that are checked together ----

  const P_MIN := "heating_pressure_min"
  const P_MAX := "heating_pressure_max"
  const WATER_MIN := "water_pressure_min"
  const WATER_MAX := "water_pressure_max"
  const BOILER_TEMP := "heating_boiler_temp"
  const BOILER_MAX := "heating_boiler_max_temp"
  const BOILER_MIN := "heating_boiler_min_temp"
  const ALM_TEMP := "watersupply_alm_temp"
  const ALM_MODE := "watersupply_ihb_alm_mode"

  type Config = map<string, Value>

  function NumOf(m: Config, key: string): Option<real> {
    if key in m && m[key].Num? then Some(m[key].x) else None
  }

  /** Both are numbers, and the relation fails. */
  predicate Reversed(m: Config, low: string, high: string) {
    NumOf(m, low).Some? && NumOf(m, high).Some? && NumOf(m, low).value >= NumOf(m, high).value
  }

  predicate TooHot(m: Config) {
    && NumOf(m, BOILER_TEMP).Some? && NumOf(m, BOILER_MAX).Some?
    && NumOf(m, BOILER_TEMP).value > NumOf(m, BOILER_MAX).value
  }

  /** The boiler's auto target is capped at max - 7: a higher `key` could never be reached. */
  predicate Unreachable(m: Config, key: string) {
    NumOf(m, key).Some? && NumOf(m, BOILER_MAX).Some? && NumOf(m, key).value > NumOf(m, BOILER_MAX).value - 7.0
  }

  predicate AlmOn(m: Config) { ALM_MODE in m && m[ALM_MODE] == Text("1") }

  predicate Touches(n: Config, keys: set<string>) { n.Keys * keys != {} }

  /** The keys blamed by the cross-field checks of `n` over the old state. */
  function CrossErrors(m: Config, n: Config): set<string> {
    (if Reversed(m, P_MIN, P_MAX) then {P_MIN} else {})
    + (if Reversed(m, WATER_MIN, WATER_MAX) then {WATER_MIN} else {})
    + (if TooHot(m) then {BOILER_TEMP} else {})
    + (if Touches(n, {BOILER_MIN, BOILER_MAX}) && Unreachable(m, BOILER_MIN)
       then {if BOILER_MIN in n then BOILER_MIN else BOILER_MAX} else {})
    + (if Touches(n, {ALM_TEMP, BOILER_MAX, ALM_MODE}) && AlmOn(m) && Unreachable(m, ALM_TEMP)
       then {if ALM_TEMP in n then ALM_TEMP else BOILER_MAX} else {})
  }

  // ---- The update ----

  type Updates = map<string, Raw>

  datatype Outcome = Forbidden(keys: set<string>) | Invalid(keys: set<string>) | Accepted(normalized: Config)

  predicate Barred(rules: Rules, key: string, admin: bool) {
    key in rules.table && rules.table[key].adminOnly && !admin
  }

  /** The key is known, permitted and its value well formed. */
  predicate Fine(rules: Rules, key: string, raw: Raw, admin: bool) {
    key in rules.table && !Barred(rules, key, admin) && Normalize(rules, key, raw).Some?
  }

  /** What the loop over the updates has made of `key` once it is past it. */
  ghost predicate SortedAt(rules: Rules, updates: Updates, admin: bool, todo: set<string>, key: string,
                           errors: set<string>, forbidden: set<string>, normalized: Config)
  {
    var seen := key !in todo && key in updates;
    && (key in forbidden <==> seen && Barred(rules, key, admin))
    && (key in errors <==> seen && !Barred(rules, key, admin) && !Fine(rules, key, updates[key], admin))
    && (key in normalized <==> seen && Fine(rules, key, updates[key], admin))
    && (key in normalized ==> Some(normalized[key]) == Normalize(rules, key, updates[key]))
  }

  /** One key: may it be set, and to what? */
  method Judge(rules: Rules, key: string, raw: Raw, admin: bool) returns (barred: bool, value: Option<Value>)
    ensures barred == Barred(rules, key, admin)
    ensures value.Some? <==> Fine(rules, key, raw, admin)
    ensures value.Some? ==> key in rules.table && value == Normalize(rules, key, raw)
  {
    hide Normalize;
    barred, value := false, None;
    if key in rules.table {
      if rules.table[key].adminOnly && !admin {
        barred := true;
      } else {
        value := Normalize(rules, key, raw);
      }
    }
  }

  lemma SortStart(rules: Rules, updates: Updates, admin: bool)
    ensures forall key :: SortedAt(rules, updates, admin, updates.Keys, key, {}, {}, map[])
  {
  }

  /** Putting one key into its place keeps every key k in order. */
  lemma SortStep(rules: Rules, updates: Updates, admin: bool, todo: set<string>, key: string, value: Option<Value>,
                 e: set<string>, f: set<string>, n: Config, k: string)
    requires key in todo && todo <= updates.Keys && SortedAt(rules, updates, admin, todo, k, e, f, n)
    requires value.Some? <==> Fine(rules, key, updates[key], admin)
    requires value.Some? ==> value == Normalize(rules, key, updates[key])
    ensures var barred := Barred(rules, key, admin);
            SortedAt(rules, updates, admin, todo - {key}, k, if !barred && value.None? then e + {key} else e,
                     if barred then f + {key} else f, if !barred && value.Some? then n[key := value.value] else n)
  {
    hide Normalize, Barred;
  }

  /** Sort the updates into errors, forbidden keys and normalized values. */
  method SortUpdates(rules: Rules, updates: Updates, admin: bool)
    returns (errors: set<string>, forbidden: set<string>, normalized: Config)
    ensures forall key :: SortedAt(rules, updates, admin, {}, key, errors, forbidden, normalized)
  {
    hide Normalize, Barred, Fine, SortedAt;
    errors, forbidden, normalized := {}, {}, map[];
    SortStart(rules, updates, admin);
    var todo := updates.Keys;
    while todo != {}
      invariant todo <= updates.Keys
      invariant forall key :: SortedAt(rules, updates, admin, todo, key, errors, forbidden, normalized)
      decreases |todo|
    {
      var key :| key in todo;
      ghost var e, f, n, left := errors, forbidden, normalized, todo;
      var barred, value := Judge(rules, key, updates[key], admin);
      if barred {
        forbidden := forbidden + {key};
      } else if value.Some? {
        normalized := normalized[key := value.value];
      } else {
        errors := errors + {key};
      }
      todo := todo - {key};
      forall k ensures SortedAt(rules, updates, admin, todo, k, errors, forbidden, normalized) {
        SortStep(rules, updates, admin, left, key, value, e, f, n, k);
      }
    }
  }

  /** The cross-field checks, in the order of the code. */
  method CrossCheck(merged: Config, normalized: Config, errors: set<string>) returns (errors': set<string>)
    ensures errors' == errors + CrossErrors(merged, normalized)
  {
    errors' := errors;
    if Reversed(merged, P_MIN, P_MAX) {
      errors' := errors' + {P_MIN};
    }
    if Reversed(merged, WATER_MIN, WATER_MAX) {
      errors' := errors' + {WATER_MIN};
    }
    if TooHot(merged) {
      errors' := errors' + {BOILER_TEMP};
    }
    if Touches(normalized, {BOILER_MIN, BOILER_MAX}) && Unreachable(merged, BOILER_MIN) {
      errors' := errors' + {if BOILER_MIN in normalized then BOILER_MIN else BOILER_MAX};
    }
    if Touches(normalized, {ALM_TEMP, BOILER_MAX, ALM_MODE}) && AlmOn(merged) && Unreachable(merged, ALM_TEMP) {
      errors' := errors' + {if ALM_TEMP in normalized then ALM_TEMP else BOILER_MAX};
    }
  }

  /** `n` is exactly the updates, each in its normal form. */
  predicate NormalForms(rules: Rules, updates: Updates, n: Config) {
    && n.Keys == updates.Keys && n.Keys <= rules.table.Keys
    && forall key :: key in n ==> Some(n[key]) == Normalize(rules, key, updates[key])
  }

  /** With n the normal forms, the cross-field checks blame exactly these keys. */
  predicate Blames(rules: Rules, updates: Updates, current: Config, n: Config, keys: set<string>) {
    NormalForms(rules, updates, n) && keys == CrossErrors(current + n, n)
  }

  method ValidateSettings(rules: Rules, updates: Updates, current: Config, admin: bool) returns (o: Outcome)
    ensures o.Forbidden? <==> exists key :: key in updates && Barred(rules, key, admin)
    ensures o.Forbidden? ==> forall key :: key in o.keys <==> key in updates && Barred(rules, key, admin)
    ensures o.Accepted? ==> NormalForms(rules, updates, o.normalized)
                            && CrossErrors(current + o.normalized, o.normalized) == {}
    ensures o.Invalid? ==> o.keys != {}
    ensures o.Invalid? && (forall key :: key in updates ==> Fine(rules, key, updates[key], admin)) ==>
              exists n :: Blames(rules, updates, current, n, o.keys)
    ensures o.Invalid? ==> forall key :: key in updates && !Fine(rules, key, updates[key], admin) ==> key in o.keys
  {
    hide Normalize, CrossErrors, SortedAt, Fine, Barred, NormalForms;
    var errors, forbidden, normalized := SortUpdates(rules, updates, admin);
    SortedMeans(rules, updates, admin, errors, forbidden, normalized);
    if forbidden != {} {
      return Forbidden(forbidden);
    }
    var merged := current + normalized;
    var all := CrossCheck(merged, normalized, errors);
    if errors == {} { NoErrors(rules, updates, admin, normalized); }
    if all != {} {
      if errors == {} { assert Blames(rules, updates, current, normalized, all); }
      BarredNotFine(rules, updates, admin);
      return Invalid(all);
    }
    return Accepted(normalized);
  }

  lemma BarredNotFine(rules: Rules, updates: Updates, admin: bool)
    ensures forall key :: key in updates && Barred(rules, key, admin) ==> !Fine(rules, key, updates[key], admin)
  {
  }

  lemma SortedMeans(rules: Rules, updates: Updates, admin: bool, errors: set<string>, forbidden: set<string>, n: Config)
    requires forall key :: SortedAt(rules, updates, admin, {}, key, errors, forbidden, n)
    ensures forall key :: key in forbidden <==> key in updates && Barred(rules, key, admin)
    ensures forall key :: key in errors <==>
                            key in updates && !Barred(rules, key, admin) && !Fine(rules, key, updates[key], admin)
    ensures errors == {} && forbidden == {} ==> forall key :: SortedAt(rules, updates, admin, {}, key, {}, {}, n)
  {
    hide Normalize, Fine, Barred;
    forall key
      ensures key in forbidden <==> key in updates && Barred(rules, key, admin)
      ensures key in errors <==>
                key in updates && !Barred(rules, key, admin) && !Fine(rules, key, updates[key], admin)
    {
      assert SortedAt(rules, updates, admin, {}, key, errors, forbidden, n);
    }
  }

  lemma NoErrors(rules: Rules, updates: Updates, admin: bool, n: Config)
    requires forall key :: SortedAt(rules, updates, admin, {}, key, {}, {}, n)
    ensures NormalForms(rules, updates, n)
  {
    hide Normalize;
    forall key ensures key in n <==> key in updates { assert SortedAt(rules, updates, admin, {}, key, {}, {}, n); }
    forall key | key in n ensures key in rules.table && Some(n[key]) == Normalize(rules, key, updates[key]) {
      assert SortedAt(rules, updates, admin, {}, key, {}, {}, n);
    }
  }

  // ---- What accepted updates keep ----

  /** The relations the controller's safety limits rest on, as far as both sides are set. */
  predicate Coherent(m: Config) {
    && !Reversed(m, P_MIN, P_MAX) && !Reversed(m, WATER_MIN, WATER_MAX) && !TooHot(m)
    && !Unreachable(m, BOILER_MIN) && (AlmOn(m) ==> !Unreachable(m, ALM_TEMP))
  }

  lemma Untouched(m: Config, n: Config, key: string)
    requires key !in n
    ensures key in m + n <==> key in m
    ensures key in m ==> (m + n)[key] == m[key]
  {
  }

  lemma TouchesAny(n: Config, a: string, b: string, c: string)
    ensures Touches(n, {a, b, c}) <==> a in n || b in n || c in n
  {
    var keys := {a, b, c};
    if a in n { assert a in n.Keys * keys; }
    if b in n { assert b in n.Keys * keys; }
    if c in n { assert c in n.Keys * keys; }
  }

  /** Over a coherent state the checks find nothing if and only if the new state is coherent. */
  lemma ChecksAreExact(m: Config, n: Config)
    requires Coherent(m)
    ensures CrossErrors(m + n, n) == {} <==> Coherent(m + n)
  {
    TouchesAny(n, BOILER_MIN, BOILER_MAX, BOILER_MAX);
    assert {BOILER_MIN, BOILER_MAX, BOILER_MAX} == {BOILER_MIN, BOILER_MAX};
    TouchesAny(n, ALM_TEMP, BOILER_MAX, ALM_MODE);
    if BOILER_MIN !in n && BOILER_MAX !in n {
      Untouched(m, n, BOILER_MIN);
      Untouched(m, n, BOILER_MAX);
    }
    if ALM_TEMP !in n && BOILER_MAX !in n && ALM_MODE !in n {
      Untouched(m, n, ALM_TEMP);
      Untouched(m, n, BOILER_MAX);
      Untouched(m, n, ALM_MODE);
    }
    hide Touches;
  }

  /** An old state that breaks a reachability rule does not block a save that touches none of its keys. */
  lemma UnrelatedSaveNotBlocked(m: Config, n: Config)
    requires !Reversed(m + n, P_MIN, P_MAX) && !Reversed(m + n, WATER_MIN, WATER_MAX) && !TooHot(m + n)
    requires BOILER_MIN !in n && BOILER_MAX !in n && ALM_TEMP !in n && ALM_MODE !in n
    ensures CrossErrors(m + n, n) == {}
  {
    TouchesAny(n, BOILER_MIN, BOILER_MAX, BOILER_MAX);
    assert {BOILER_MIN, BOILER_MAX, BOILER_MAX} == {BOILER_MIN, BOILER_MAX};
    TouchesAny(n, ALM_TEMP, BOILER_MAX, ALM_MODE);
    hide Touches;
  }

  /** One request over the stored settings: what it normalizes to if accepted. */
  datatype Request = Request(updates: Updates, admin: bool)

  /** `n` is a possible accepted outcome of the request over m. */
  predicate Accepts(rules: Rules, m: Config, r: Request, n: Config) {
    NormalForms(rules, r.updates, n) && CrossErrors(m + n, n) == {}
  }

  /** The request is refused, or accepted and merged. */
  ghost predicate Handles(rules: Rules, m: Config, r: Request, m': Config) {
    m' == m || exists n :: Accepts(rules, m, r, n) && m' == m + n
  }

  /** The stored settings along a sequence of requests: an accepted one is merged, a refused one changes nothing. */
  ghost predicate IsHistory(rules: Rules, rs: seq<Request>, ms: seq<Config>) {
    |ms| == |rs| + 1 && forall k :: 0 <= k < |rs| ==> Handles(rules, ms[k], rs[k], ms[k + 1])
  }

  /** Whatever is requested, by whomever, the stored settings stay coherent. */
  lemma {:induction false} SettingsStayCoherent(rules: Rules, rs: seq<Request>, ms: seq<Config>, k: nat)
    requires IsHistory(rules, rs, ms) && k <= |rs| && Coherent(ms[0])
    ensures Coherent(ms[k])
  {
    hide Coherent, NormalForms, CrossErrors;
    if k > 0 {
      SettingsStayCoherent(rules, rs, ms, k - 1);
      assert Handles(rules, ms[k - 1], rs[k - 1], ms[k]);
      if ms[k] != ms[k - 1] {
        var n :| Accepts(rules, ms[k - 1], rs[k - 1], n) && ms[k] == ms[k - 1] + n;
        ChecksAreExact(ms[k - 1], n);
      }
    }
  }

  // ---- The same settings on the controller ----

  /** The controller has the stored values of the keys that are checked together. */
  predicate Delivered(m: Config, s: Controller.Settings) {
    && NumOf(m, BOILER_TEMP) == Some(s.boiler.temp) && NumOf(m, BOILER_MAX) == Some(s.boiler.max)
    && NumOf(m, BOILER_MIN) == Some(s.boiler.min) && NumOf(m, ALM_TEMP) == Some(s.alm.temp)
    && ALM_MODE in m && m[ALM_MODE] == Text(if s.alm.mode then "1" else "0")
    && NumOf(m, P_MIN) == Some(s.fill.pMin) && NumOf(m, P_MAX) == Some(s.fill.pMax)
  }

  /** After any requests, with the stored settings delivered, the controller regulates the boiler to at most max - 7,
      at least the minimum when something wants heat, and at least the disinfection temperature while that loads the
      tank. */
  lemma AcceptedSettingsBoundTargets(rules: Rules, rs: seq<Request>, ms: seq<Config>, k: nat, d: Controller.Ctl,
                                     now: nat)
    requires IsHistory(rules, rs, ms) && k <= |rs| && Coherent(ms[0])
    requires d.Valid() && Delivered(ms[k], d.settings)
    ensures d.settings.fill.pMin < d.settings.fill.pMax
    ensures var t, s := ControllerRuns.TargetOf(d, now), d.settings;
            && t <= s.boiler.max - 7.0
            && (ControllerPromises.WantsHeat(d) ==> s.boiler.min <= t)
            && (d.alm.active && s.alm.mode && Heating.Loading(s.tank, d.ihbHeating, d.pumps.ihb) ==> t >= s.alm.temp)
  {
    SettingsStayCoherent(rules, rs, ms, k);
    DeliveredCoherent(ms[k], d.settings);
    ControllerPromises.TargetBounds(d, now);
    hide ControllerRuns.TargetOf, ControllerPromises.WantsHeat, Heating.Loading, IsHistory;
  }

  lemma DeliveredCoherent(m: Config, s: Controller.Settings)
    requires Coherent(m) && Delivered(m, s)
    ensures ControllerPromises.CoherentSettings(s) && s.fill.pMin < s.fill.pMax
  {
  }
}
