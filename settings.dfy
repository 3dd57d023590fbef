/** `SettingsRepository`: the currency preferences kept in a preferences
    store under the keys `vs_currency`, `manual_currency` and
    `use_location_currency`. */
module Settings {
  import opened Wrappers
  import opened Text

  /** The three preference keys; `None` is a key that was never written. */
  datatype Prefs = Prefs(
    vsCurrency: Option<string>,
    manualCurrency: Option<string>,
    useLocationCurrency: Option<bool>)

  const DEFAULT_CURRENCY: string := "usd"

  /** `vsCurrencyFlow`: the stored currency, or "usd", lowercased. */
  function ReadVsCurrency(p: Prefs): (c: string)
    ensures IsLowerCase(c)
    ensures p.vsCurrency.None? ==> c == DEFAULT_CURRENCY
    ensures p.vsCurrency.Some? ==> c == Lower(p.vsCurrency.value)
  {
    Lower(p.vsCurrency.GetOr(DEFAULT_CURRENCY))
  }

  /** `useLocationCurrencyFlow`: the stored flag, or false. */
  function ReadUseLocationCurrency(p: Prefs): (b: bool)
    ensures b <==> p.useLocationCurrency == Some(true)
  {
    p.useLocationCurrency.GetOr(false)
  }

  /** `setVsCurrency(code)`. */
  function AfterSetVsCurrency(p: Prefs, code: string): (q: Prefs)
    ensures q.manualCurrency == p.manualCurrency && q.useLocationCurrency == p.useLocationCurrency
    ensures q.vsCurrency == Some(Lower(code)) && ReadVsCurrency(q) == Lower(code)
  {
    LowerIdempotent(code);
    p.(vsCurrency := Some(Lower(code)))
  }

  /** `setManualCurrency(code)`: the manual choice becomes the currency in use
      and switches the location currency off. */
  function AfterSetManualCurrency(p: Prefs, code: string): (q: Prefs)
    ensures q.manualCurrency == Some(Lower(code))
    ensures q.vsCurrency == Some(Lower(code)) && ReadVsCurrency(q) == Lower(code)
    ensures q.useLocationCurrency == Some(false) && !ReadUseLocationCurrency(q)
  {
    LowerIdempotent(code);
    Prefs(Some(Lower(code)), Some(Lower(code)), Some(false))
  }

  /** `setUseLocationCurrency(enabled)`. */
  function AfterSetUseLocationCurrency(p: Prefs, enabled: bool): (q: Prefs)
    ensures q.vsCurrency == p.vsCurrency && q.manualCurrency == p.manualCurrency
    ensures q.useLocationCurrency == Some(enabled) && ReadUseLocationCurrency(q) == enabled
  {
    p.(useLocationCurrency := Some(enabled))
  }

  /** `isNullOrBlank()`. */
  predicate IsNullOrBlank(s: Option<string>) {
    s.None? || IsBlank(s.value)
  }

  /** `enableLocationCurrency(currentVsCurrency)`: switches the flag on and, when
      no usable manual currency is remembered, remembers the current one. */
  function AfterEnableLocationCurrency(p: Prefs, currentVsCurrency: string): (q: Prefs)
    ensures q.vsCurrency == p.vsCurrency
    ensures q.useLocationCurrency == Some(true) && ReadUseLocationCurrency(q)
    ensures IsNullOrBlank(p.manualCurrency) ==> q.manualCurrency == Some(Lower(currentVsCurrency))
    ensures !IsNullOrBlank(p.manualCurrency) ==> q.manualCurrency == p.manualCurrency
  {
    var manual := if IsNullOrBlank(p.manualCurrency) then Some(Lower(currentVsCurrency))
                  else Some(p.manualCurrency.GetOr(Lower(currentVsCurrency)));
    p.(manualCurrency := manual, useLocationCurrency := Some(true))
  }

  /** `disableLocationCurrencyAndRestoreManual()`: switches the flag off and
      makes the remembered manual currency (or "usd") the currency in use. */
  function AfterDisableLocationCurrencyAndRestoreManual(p: Prefs): (q: Prefs)
    ensures q.manualCurrency == p.manualCurrency
    ensures q.useLocationCurrency == Some(false) && !ReadUseLocationCurrency(q)
    ensures q.vsCurrency == Some(Lower(p.manualCurrency.GetOr(DEFAULT_CURRENCY)))
    ensures ReadVsCurrency(q) == Lower(p.manualCurrency.GetOr(DEFAULT_CURRENCY))
  {
    var manual := Lower(p.manualCurrency.GetOr(DEFAULT_CURRENCY));
    LowerIdempotent(p.manualCurrency.GetOr(DEFAULT_CURRENCY));
    p.(useLocationCurrency := Some(false), vsCurrency := Some(manual))
  }

  /** The edits that may happen while the location currency is in use. */
  datatype Edit =
    | SetVs(code: string)
    | SetUseLocation(enabled: bool)
    | EnableLocation(currentVsCurrency: string)

  function Apply(p: Prefs, e: Edit): Prefs {
    match e
    case SetVs(code) => AfterSetVsCurrency(p, code)
    case SetUseLocation(enabled) => AfterSetUseLocationCurrency(p, enabled)
    case EnableLocation(current) => AfterEnableLocationCurrency(p, current)
  }

  function ApplyAll(p: Prefs, edits: seq<Edit>): Prefs
    decreases |edits|
  {
    if edits == [] then p else ApplyAll(Apply(p, edits[0]), edits[1..])
  }

  /** A remembered manual currency that is not blank survives every such edit. */
  lemma {:induction false} ManualSurvives(p: Prefs, edits: seq<Edit>)
    requires !IsNullOrBlank(p.manualCurrency)
    ensures ApplyAll(p, edits).manualCurrency == p.manualCurrency
    decreases |edits|
  {
    if edits != [] {
      ManualSurvives(Apply(p, edits[0]), edits[1..]);
    }
  }

  /** Save and restore: after `setManualCurrency(code)` with a non-blank `code`,
      any sequence of location enables, currency and flag changes, followed by
      `disableLocationCurrencyAndRestoreManual()`, reads back `code` lowercased
      with the location currency off. */
  lemma ManualCurrencyRestored(p: Prefs, code: string, edits: seq<Edit>)
    requires !IsBlank(code)
    ensures ReadVsCurrency(AfterDisableLocationCurrencyAndRestoreManual(ApplyAll(AfterSetManualCurrency(p, code), edits))) == Lower(code)
    ensures !ReadUseLocationCurrency(AfterDisableLocationCurrencyAndRestoreManual(ApplyAll(AfterSetManualCurrency(p, code), edits)))
  {
    LowerKeepsBlank(code);
    ManualSurvives(AfterSetManualCurrency(p, code), edits);
    LowerIdempotent(code);
  }

  /** A blank manual currency is not remembered: enabling the location currency
      replaces it, and disabling restores the currency that was current then. */
  lemma BlankManualReplaced(p: Prefs, code: string, current: string)
    requires IsBlank(code)
    ensures ReadVsCurrency(AfterDisableLocationCurrencyAndRestoreManual(
              AfterEnableLocationCurrency(AfterSetManualCurrency(p, code), current))) == Lower(current)
  {
    LowerKeepsBlank(code);
    LowerIdempotent(current);
  }

  /** With nothing remembered, disabling the location currency falls back to "usd". */
  lemma RestoreDefaultsToUsd(p: Prefs)
    requires p.manualCurrency.None?
    ensures ReadVsCurrency(AfterDisableLocationCurrencyAndRestoreManual(p)) == DEFAULT_CURRENCY
  {
  }

  /** The preferences store, edited in place by each setter. */
  class SettingsRepository {
    var prefs: Prefs

    /** Opens the preferences store with what earlier launches left in it. */
    constructor (stored: Prefs)
      ensures prefs == stored
    {
      prefs := stored;
    }

    method SetVsCurrency(code: string)
      modifies this
      ensures prefs == AfterSetVsCurrency(old(prefs), code)
    {
      prefs := prefs.(vsCurrency := Some(Lower(code)));
    }

    method SetManualCurrency(code: string)
      modifies this
      ensures prefs == AfterSetManualCurrency(old(prefs), code)
    {
      var c := Lower(code);
      prefs := prefs.(manualCurrency := Some(c));
      prefs := prefs.(vsCurrency := Some(c));
      prefs := prefs.(useLocationCurrency := Some(false));
    }

    method SetUseLocationCurrency(enabled: bool)
      modifies this
      ensures prefs == AfterSetUseLocationCurrency(old(prefs), enabled)
    {
      prefs := prefs.(useLocationCurrency := Some(enabled));
    }

    method EnableLocationCurrency(currentVsCurrency: string)
      modifies this
      ensures prefs == AfterEnableLocationCurrency(old(prefs), currentVsCurrency)
    {
      var current := Lower(currentVsCurrency);
      if IsNullOrBlank(prefs.manualCurrency) {
        prefs := prefs.(manualCurrency := Some(current));
      } else {
        prefs := prefs.(manualCurrency := Some(prefs.manualCurrency.GetOr(current)));
      }
      prefs := prefs.(useLocationCurrency := Some(true));
    }

    method DisableLocationCurrencyAndRestoreManual()
      modifies this
      ensures prefs == AfterDisableLocationCurrencyAndRestoreManual(old(prefs))
    {
      var manual := Lower(prefs.manualCurrency.GetOr(DEFAULT_CURRENCY));
      prefs := prefs.(useLocationCurrency := Some(false));
      prefs := prefs.(vsCurrency := Some(manual));
    }
  }
}
