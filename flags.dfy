/** The launch feature flags (`checkoutEnabled`, `authEnabled`): each is
    read from a URL parameter, else from local storage, else from a window
    global, and normalised to a boolean; a helper persists overrides in
    local storage. */
module Flags {
  import opened Wrappers
  import opened JsValues

  /** The words `toBoolean` accepts as true, after lower-casing and trimming. */
  predicate IsTrueWord(s: string) {
    s == "true" || s == "1" || s == "yes" || s == "on"
  }

  /** `toBoolean(value)` */
  function ToBoolean(v: JsValue): (r: bool)
    ensures v.Bool? ==> r == v.b
    ensures IsNullish(v) ==> !r
    ensures !v.Bool? && !IsNullish(v) ==> (r <==> IsTrueWord(Trim(ToLower(ToJsString(v)))))
  {
    if v == Bool(true) then true
    else if v == Bool(false) then false
    else if IsNullish(v) then false
    else IsTrueWord(Trim(ToLower(ToJsString(v))))
  }

  /** The booleans and the absent values map directly. */
  lemma ToBooleanNonStrings()
    ensures ToBoolean(Bool(true)) && !ToBoolean(Bool(false))
    ensures !ToBoolean(Null) && !ToBoolean(Undefined)
  {
  }

  /** A string is true exactly when, lower-cased and trimmed, it is one of
      "true", "1", "yes" or "on". */
  lemma ToBooleanOnStrings(s: string)
    ensures ToBoolean(Str(s)) <==> IsTrueWord(Trim(ToLower(s)))
  {
  }

  /** A string already in lower case and without surrounding white space
      is true exactly when it is one of the accepted words. */
  lemma ToBooleanPlain(s: string)
    requires forall i :: 0 <= i < |s| ==> !('A' <= s[i] <= 'Z')
    requires s == [] || (!IsWhiteSpace(s[0]) && !IsWhiteSpace(s[|s| - 1]))
    ensures ToBoolean(Str(s)) == IsTrueWord(s)
  {
    ToBooleanOnStrings(s);
    ToLowerNoUpper(s);
    TrimNoSpace(s);
  }

  /** Surrounding white space and upper case do not matter. */
  lemma PaddedUpperCaseTrue()
    ensures ToBoolean(Str(" TRUE "))
  {
    ToBooleanOnStrings(" TRUE ");
    PaddedUpperCaseLowered();
    TrimPadded("true");
  }

  /** Lower-casing " TRUE " gives " true ". */
  lemma PaddedUpperCaseLowered()
    ensures ToLower(" TRUE ") == " " + "true" + " "
  {
    ToLowerConcat(" ", "TRUE");
    ToLowerConcat(" TRUE", " ");
    assert ToLower("TRUE") == "true";
    assert " TRUE" == " " + "TRUE";
    assert " TRUE " == " TRUE" + " ";
  }

  /** "0" is false. */
  lemma ZeroIsFalse()
    ensures !ToBoolean(Str("0"))
  {
    ToBooleanPlain("0");
  }

  /** "no" is false. */
  lemma NoIsFalse()
    ensures !ToBoolean(Str("no"))
  {
    ToBooleanPlain("no");
  }

  /** The empty string is false. */
  lemma EmptyIsFalse()
    ensures !ToBoolean(Str(""))
  {
    ToBooleanPlain("");
  }

  /** The text `CABANA_SET_FLAGS` stores for a flag. */
  function StoredText(enabled: bool): string {
    if enabled then "true" else "false"
  }

  /** Reading a stored flag back with `toBoolean` gives the value stored. */
  lemma StoredTextRoundTrip(enabled: bool)
    ensures ToBoolean(Str(StoredText(enabled))) == enabled
  {
    if enabled {
      ToBooleanPlain("true");
    } else {
      ToBooleanPlain("false");
    }
  }

  // ---------------------------------------------------------------------
  // Resolving one flag from its sources
  // ---------------------------------------------------------------------

  /** The three places one flag is read from: the URL parameter and the
      local-storage entry (strings or null) and the two window globals. */
  datatype FlagSources = FlagSources(
    url: Option<string>,
    stored: Option<string>,
    publicGlobal: JsValue,
    legacyGlobal: JsValue)

  /** The window source: `NEXT_PUBLIC_* || __*_ENABLED__`. */
  function WindowValue(s: FlagSources): (r: JsValue)
    ensures Truthy(s.publicGlobal) ==> r == s.publicGlobal
    ensures !Truthy(s.publicGlobal) ==> r == s.legacyGlobal
  {
    Or(s.publicGlobal, s.legacyGlobal)
  }

  /** `toBoolean(url != null ? url : (ls != null ? ls : win))`: the first
      source that is not null decides, in the order URL, storage, window. */
  function ResolveFlag(s: FlagSources): (r: bool)
    ensures s.url.Some? ==> r == ToBoolean(Str(s.url.value))
    ensures s.url.None? && s.stored.Some? ==> r == ToBoolean(Str(s.stored.value))
    ensures s.url.None? && s.stored.None? ==> r == ToBoolean(WindowValue(s))
  {
    ToBoolean(
      if s.url.Some? then Str(s.url.value)
      else if s.stored.Some? then Str(s.stored.value)
      else WindowValue(s))
  }

  /** A URL value decides the flag even when it reads as false: "0" in the
      URL overrides "true" in storage. */
  lemma UrlOverridesStorage(publicGlobal: JsValue, legacyGlobal: JsValue)
    ensures !ResolveFlag(FlagSources(Some("0"), Some("true"), publicGlobal, legacyGlobal))
  {
    ToBooleanPlain("0");
  }

  /** With every source absent the flag is off. */
  lemma AllAbsentIsOff()
    ensures !ResolveFlag(FlagSources(None, None, Undefined, Undefined))
  {
  }

  /** A falsy public global gives way to the legacy one. */
  lemma LegacyGlobalFallback(legacy: JsValue)
    ensures ResolveFlag(FlagSources(None, None, Bool(false), legacy)) == ToBoolean(legacy)
    ensures ResolveFlag(FlagSources(None, None, Str(""), legacy)) == ToBoolean(legacy)
  {
  }

  // ---------------------------------------------------------------------
  // The page's flags
  // ---------------------------------------------------------------------

  /** The names one flag is looked up under. */
  datatype FlagKeys = FlagKeys(param: string, storageKey: string, publicGlobal: string, legacyGlobal: string)

  const CheckoutKeys: FlagKeys :=
    FlagKeys("checkout", "CABANA_FLAG_checkoutEnabled", "NEXT_PUBLIC_CHECKOUT_ENABLED", "__CHECKOUT_ENABLED__")
  const AuthKeys: FlagKeys :=
    FlagKeys("auth", "CABANA_FLAG_authEnabled", "NEXT_PUBLIC_AUTH_ENABLED", "__AUTH_ENABLED__")

  /** What the script can see of the page: the URL's query parameters, the
      local-storage entries and the window's globals. Each is `None` when it
      cannot be read (no window, or local storage throws). */
  datatype Page = Page(
    query: Option<map<string, string>>,
    storage: Option<map<string, string>>,
    globals: Option<map<string, JsValue>>)

  function Lookup(m: Option<map<string, string>>, key: string): Option<string> {
    if m.Some? && key in m.value then Some(m.value[key]) else None
  }

  function Global(globals: Option<map<string, JsValue>>, name: string): JsValue {
    if globals.Some? && name in globals.value then globals.value[name] else Undefined
  }

  /** The sources of the flag named by `keys`. */
  function SourcesOf(page: Page, keys: FlagKeys): (r: FlagSources)
    ensures page.query.None? ==> r.url.None?
    ensures page.storage.None? ==> r.stored.None?
    ensures page.globals.None? ==> r.publicGlobal == Undefined && r.legacyGlobal == Undefined
    ensures page.globals.Some? ==>
      r.publicGlobal == Global(page.globals, keys.publicGlobal) &&
      r.legacyGlobal == Global(page.globals, keys.legacyGlobal)
    ensures r.url == Lookup(page.query, keys.param) && r.stored == Lookup(page.storage, keys.storageKey)
    ensures page.query.Some? && keys.param in page.query.value ==> r.url == Some(page.query.value[keys.param])
    ensures page.storage.Some? && keys.storageKey in page.storage.value ==>
      r.stored == Some(page.storage.value[keys.storageKey])
  {
    FlagSources(
      Lookup(page.query, keys.param),
      Lookup(page.storage, keys.storageKey),
      Global(page.globals, keys.publicGlobal),
      Global(page.globals, keys.legacyGlobal))
  }

  /** `window.CABANA_FLAGS` */
  datatype CabanaFlags = CabanaFlags(checkoutEnabled: bool, authEnabled: bool)

  /** The script's start-up: resolve both flags, apply the "safe defaults"
      block and publish the result. The safe defaults never change an
      already resolved value. */
  method ComputeFlags(page: Page) returns (flags: CabanaFlags)
    ensures flags.checkoutEnabled == ResolveFlag(SourcesOf(page, CheckoutKeys))
    ensures flags.authEnabled == ResolveFlag(SourcesOf(page, AuthKeys))
  {
    var checkout := SourcesOf(page, CheckoutKeys);
    var auth := SourcesOf(page, AuthKeys);
    var checkoutEnabled := ResolveFlag(checkout);
    var authEnabled := ResolveFlag(auth);
    if !checkoutEnabled && checkout.url.None? && checkout.stored.None? && IsNullish(WindowValue(checkout)) {
      checkoutEnabled := false;
    }
    if !authEnabled && auth.url.None? && auth.stored.None? && IsNullish(WindowValue(auth)) {
      authEnabled := false;
    }
    flags := CabanaFlags(checkoutEnabled, authEnabled);
  }

  /** Each flag depends only on its own sources: two pages that agree on
      them agree on the flag, whatever else differs. */
  lemma FlagDependsOnOwnSources(p1: Page, p2: Page, keys: FlagKeys)
    requires Lookup(p1.query, keys.param) == Lookup(p2.query, keys.param)
    requires Lookup(p1.storage, keys.storageKey) == Lookup(p2.storage, keys.storageKey)
    requires Global(p1.globals, keys.publicGlobal) == Global(p2.globals, keys.publicGlobal)
    requires Global(p1.globals, keys.legacyGlobal) == Global(p2.globals, keys.legacyGlobal)
    ensures ResolveFlag(SourcesOf(p1, keys)) == ResolveFlag(SourcesOf(p2, keys))
  {
  }

  /** Storing the auth flag leaves the checkout flag's sources alone, and
      the other way round. */
  lemma StoringOneFlagKeepsTheOther(page: Page, value: string)
    requires page.storage.Some?
    ensures var p := page.(storage := Some(page.storage.value[AuthKeys.storageKey := value]));
      SourcesOf(p, CheckoutKeys) == SourcesOf(page, CheckoutKeys)
    ensures var p := page.(storage := Some(page.storage.value[CheckoutKeys.storageKey := value]));
      SourcesOf(p, AuthKeys) == SourcesOf(page, AuthKeys)
  {
  }

  // ---------------------------------------------------------------------
  // CABANA_SET_FLAGS
  // ---------------------------------------------------------------------

  /** The browser's local storage; `available` is false where every access
      throws (storage disabled). */
  class LocalStorage {
    var entries: map<string, string>
    var available: bool

    constructor (entries: map<string, string>, available: bool)
      ensures this.entries == entries && this.available == available
    {
      this.entries := entries;
      this.available := available;
    }

    /** `localStorage.setItem(key, value)`; returns false where it throws. */
    method SetItem(key: string, value: string) returns (ok: bool)
      modifies this`entries
      ensures ok == available
      ensures entries == if ok then old(entries)[key := value] else old(entries)
    {
      ok := available;
      if ok {
        entries := entries[key := value];
      }
    }
  }

  /** `typeof next[name] !== 'undefined'` for a truthy `next`: the field
      the call asks to store, if any. */
  function Requested(next: JsValue, name: string): (r: Option<JsValue>)
    ensures r.Some? <==> next.Object? && name in next.fields && next.fields[name] != Undefined
    ensures r.Some? ==> r.value == next.fields[name]
  {
    if Truthy(next) && Get(next, name).Success? && Get(next, name).value != Undefined
    then Some(Get(next, name).value) else None
  }

  /** The storage entries after a successful `CABANA_SET_FLAGS(next)`. */
  function StoredFlags(entries: map<string, string>, next: JsValue): (r: map<string, string>)
    ensures forall k :: k in entries ==> k in r
    ensures forall k :: k in r && k != CheckoutKeys.storageKey && k != AuthKeys.storageKey ==>
      k in entries && r[k] == entries[k]
    ensures Requested(next, "checkoutEnabled").Some? ==>
      CheckoutKeys.storageKey in r &&
      r[CheckoutKeys.storageKey] == StoredText(Truthy(Requested(next, "checkoutEnabled").value))
    ensures Requested(next, "checkoutEnabled").None? ==>
      (CheckoutKeys.storageKey in r <==> CheckoutKeys.storageKey in entries) &&
      (CheckoutKeys.storageKey in entries ==> r[CheckoutKeys.storageKey] == entries[CheckoutKeys.storageKey])
    ensures Requested(next, "authEnabled").Some? ==>
      AuthKeys.storageKey in r &&
      r[AuthKeys.storageKey] == StoredText(Truthy(Requested(next, "authEnabled").value))
    ensures Requested(next, "authEnabled").None? ==>
      (AuthKeys.storageKey in r <==> AuthKeys.storageKey in entries) &&
      (AuthKeys.storageKey in entries ==> r[AuthKeys.storageKey] == entries[AuthKeys.storageKey])
  {
    var afterCheckout :=
      match Requested(next, "checkoutEnabled")
      case Some(v) => entries[CheckoutKeys.storageKey := StoredText(Truthy(v))]
      case None => entries;
    match Requested(next, "authEnabled")
    case Some(v) => afterCheckout[AuthKeys.storageKey := StoredText(Truthy(v))]
    case None => afterCheckout
  }

  /** `CABANA_SET_FLAGS(next)`: store "true" or "false" for each flag `next`
      mentions, by the truthiness of its value. Where storage throws nothing
      changes; the page reload that follows is not modelled. */
  method SetFlags(storage: LocalStorage, next: JsValue)
    modifies storage`entries
    ensures storage.entries == if storage.available then StoredFlags(old(storage.entries), next) else old(storage.entries)
  {
    var checkout := Requested(next, "checkoutEnabled");
    if checkout.Some? {
      var ok := storage.SetItem(CheckoutKeys.storageKey, StoredText(Truthy(checkout.value)));
      if !ok {
        return;
      }
    }
    var auth := Requested(next, "authEnabled");
    if auth.Some? {
      var ok := storage.SetItem(AuthKeys.storageKey, StoredText(Truthy(auth.value)));
    }
  }

  /** After `CABANA_SET_FLAGS` and a reload, a flag that `next` set and that
      the URL does not override reads as the truthiness of what was set. */
  lemma SetFlagsRoundTrip(page: Page, entries: map<string, string>, next: JsValue, keys: FlagKeys, field: string)
    requires (keys == CheckoutKeys && field == "checkoutEnabled") || (keys == AuthKeys && field == "authEnabled")
    requires Requested(next, field).Some?
    requires page.storage == Some(StoredFlags(entries, next))
    requires Lookup(page.query, keys.param).None?
    ensures ResolveFlag(SourcesOf(page, keys)) == Truthy(Requested(next, field).value)
  {
    StoredTextRoundTrip(Truthy(Requested(next, field).value));
  }
}
