/** cli/cmd/config.go: contexts exported with their secrets masked, and imported
    without ever storing a mask. A text is its bytes; net/url is a parameter. */
module Contexts {
  import opened Values

  // -------------------------------------------------------------------- masks

  const API_KEY_MASK := "****"
  const PASSWORD_MASK := "xxxxx"

  function MaskAPIKey(key: string): string {
    if |key| < 16 then API_KEY_MASK else key[..4] + API_KEY_MASK
  }

  predicate IsMaskedAPIKey(key: string) {
    key == API_KEY_MASK || (|key| == 4 + |API_KEY_MASK| && key[4..] == API_KEY_MASK)
  }

  /** A parsed URL: its user part, and the rest. */
  datatype User = User(name: string, password: Option<string>)
  datatype Url = Url(user: Option<User>, rest: string)

  /** net/url: reading a text, and writing a URL. */
  datatype Library = Library(parse: string -> Option<Url>, show: Url -> string)

  function PasswordOf(u: Url): Option<string> {
    match u.user case Some(user) => user.password case None => None
  }

  function Redacted(u: Url): Url
    requires u.user.Some?
  {
    u.(user := Some(u.user.value.(password := Some(PASSWORD_MASK))))
  }

  function MaskProxy(lib: Library, raw: string): string {
    match lib.parse(raw)
    case None => ""
    case Some(u) => if PasswordOf(u).None? then raw else lib.show(Redacted(u))
  }

  predicate IsMaskedProxy(lib: Library, raw: string) {
    match lib.parse(raw)
    case None => false
    case Some(u) => PasswordOf(u) == Some(PASSWORD_MASK)
  }

  function WithoutPassword(lib: Library, raw: string): string {
    match lib.parse(raw)
    case None => raw
    case Some(u) => if u.user.None? then raw else lib.show(u.(user := Some(User(u.user.value.name, None))))
  }

  /** What is used of net/url: no text is no proxy, and of a URL it has read, a
      password written is read back, and one left out is not there. */
  ghost predicate IsLawful(lib: Library) {
    && lib.parse("").Some? && lib.parse("").value.user == None
    && forall raw | lib.parse(raw).Some? && lib.parse(raw).value.user.Some? ::
         var u := lib.parse(raw).value;
         && IsMaskedProxy(lib, lib.show(Redacted(u)))
         && !IsMaskedProxy(lib, lib.show(u.(user := Some(User(u.user.value.name, None)))))
  }

  // ------------------------------------------------------------------ contexts

  datatype Context = Context(
    url: string, output: string, apiKey: string, proxy: string, insecure: bool,
    keySource: string, profiles: seq<string>)

  type Config = map<string, Context>

  datatype Warning = ProxyPasswordMasked | KeyKept | NoKey | OtherUrl | OtherTransport | OtherKey

  /** What `kates ctx export` writes of a context without --reveal. */
  function Export(lib: Library, c: Context): Context {
    c.(apiKey := if c.apiKey != "" then MaskAPIKey(c.apiKey) else "", proxy := MaskProxy(lib, c.proxy), keySource := "")
  }

  /** The proxy stored for one in a file, and whether its password is lost. */
  function ImportProxy(lib: Library, proxy: string, existing: Option<Context>): (string, seq<Warning>) {
    if !IsMaskedProxy(lib, proxy) then (proxy, [])
    else if existing.Some? && MaskProxy(lib, existing.value.proxy) == proxy then (existing.value.proxy, [])
    else (WithoutPassword(lib, proxy), [ProxyPasswordMasked])
  }

  /** Why a masked key is not the one to keep, if so. */
  function KeyFault(mask: string, c: Context, existing: Option<Context>): Option<Warning> {
    if existing.None? || existing.value.apiKey == "" then Some(NoKey)
    else if c.url != existing.value.url then Some(OtherUrl)
    else if c.proxy != existing.value.proxy || c.insecure != existing.value.insecure then Some(OtherTransport)
    else if mask != MaskAPIKey(existing.value.apiKey) then Some(OtherKey)
    else None
  }

  /** importContext */
  function ImportContext(lib: Library, incoming: Context, existing: Option<Context>): (Context, seq<Warning>) {
    var profiles := if existing.Some? && incoming.profiles == [] then existing.value.profiles else incoming.profiles;
    var (proxy, warnings) := ImportProxy(lib, incoming.proxy, existing);
    var c := incoming.(profiles := profiles, proxy := proxy, keySource := "");
    if !IsMaskedAPIKey(incoming.apiKey) then (c, warnings)
    else match KeyFault(incoming.apiKey, c, existing)
      case None => (c.(apiKey := existing.value.apiKey, keySource := existing.value.keySource), warnings + [KeyKept])
      case Some(why) => (c.(apiKey := ""), warnings + [why])
  }

  function Lookup(config: Config, name: string): Option<Context> {
    if name in config then Some(config[name]) else None
  }

  /** What becomes of each of a file's contexts, given those there are. */
  function Incoming(lib: Library, config: Config, file: Config): (r: map<string, (Context, seq<Warning>)>)
    ensures r.Keys == file.Keys
  {
    map name | name in file :: ImportContext(lib, file[name], Lookup(config, name))
  }

  function Merge(config: Config, incoming: map<string, (Context, seq<Warning>)>): Config {
    map name | name in config.Keys + incoming.Keys :: if name in incoming then incoming[name].0 else config[name]
  }

  function Said(incoming: map<string, (Context, seq<Warning>)>): map<string, seq<Warning>> {
    map name | name in incoming :: incoming[name].1
  }

  /** A config with a file's contexts imported. */
  function Import(lib: Library, config: Config, file: Config): Config {
    Merge(config, Incoming(lib, config, file))
  }

  function ImportAll(lib: Library, config: Config, files: seq<Config>): Config {
    if files == [] then config else Import(lib, ImportAll(lib, config, files[..|files| - 1]), files[|files| - 1])
  }

  class Store {
    var contexts: Config

    constructor (contexts: Config)
      ensures this.contexts == contexts
    {
      this.contexts := contexts;
    }

    method ImportOne(lib: Library, file: Config, name: string, ghost before: Config, ghost left: set<string>)
      returns (said: seq<Warning>)
      requires left <= file.Keys && name in left
      requires contexts == Merge(before, Incoming(lib, before, file) - left)
      modifies this
      ensures contexts == Merge(before, Incoming(lib, before, file) - (left - {name}))
      ensures said == Incoming(lib, before, file)[name].1
    {
      OneMoreImported(before, Incoming(lib, before, file), left, name);
      var entry := ImportContext(lib, file[name], Lookup(contexts, name));
      contexts := contexts[name := entry.0];
      said := entry.1;
    }

    /** The loop of `kates ctx import`, over the file's names in any order. */
    method ImportFile(lib: Library, file: Config) returns (warnings: map<string, seq<Warning>>)
      modifies this
      ensures contexts == Import(lib, old(contexts), file)
      ensures warnings == Said(Incoming(lib, old(contexts), file))
    {
      ghost var before := contexts;
      warnings := map[];
      var left := file.Keys;
      NoneImported(before, Incoming(lib, before, file));
      while left != {}
        invariant left <= file.Keys
        invariant contexts == Merge(before, Incoming(lib, before, file) - left)
        invariant warnings == Said(Incoming(lib, before, file) - left)
        decreases |left|
      {
        var name :| name in left;
        OneMoreImported(before, Incoming(lib, before, file), left, name);
        var said := ImportOne(lib, file, name, before, left);
        warnings := warnings[name := said];
        left := left - {name};
      }
    }
  }

  lemma NoneImported(config: Config, incoming: map<string, (Context, seq<Warning>)>)
    ensures Merge(config, incoming - incoming.Keys) == config && Said(incoming - incoming.Keys) == map[]
    ensures incoming - {} == incoming
  {
  }

  lemma OneMoreImported(config: Config, incoming: map<string, (Context, seq<Warning>)>, left: set<string>, name: string)
    requires left <= incoming.Keys && name in left
    ensures Lookup(Merge(config, incoming - left), name) == Lookup(config, name)
    ensures Merge(config, incoming - (left - {name})) == Merge(config, incoming - left)[name := incoming[name].0]
    ensures Said(incoming - (left - {name})) == Said(incoming - left)[name := incoming[name].1]
  {
  }

  // -------------------------------------------------------------- what is stored

  /** A key as export prints it: four stars, or four characters and four stars. */
  ghost predicate LooksMasked(key: string) {
    key == "****" || exists shown: string :: |shown| == 4 && key == shown + "****"
  }

  /** The key stands for the one it was printed from. */
  ghost predicate PrintedFrom(mask: string, key: string) {
    if |key| < 16 then mask == "****" else exists shown, rest: string :: |shown| == 4 && key == shown + rest && mask == shown + "****"
  }

  /** The proxy is a URL with the password export prints. */
  ghost predicate ProxyLooksMasked(lib: Library, proxy: string) {
    exists name, rest :: lib.parse(proxy) == Some(Url(Some(User(name, Some("xxxxx"))), rest))
  }

  /** What export prints of a proxy: nothing of one that is no URL, one without
      a password as it is, and else the URL with the mask for a password. */
  ghost predicate ProxyPrinted(lib: Library, raw: string, printed: string) {
    match lib.parse(raw)
    case None => printed == ""
    case Some(Url(None, _)) => printed == raw
    case Some(Url(Some(User(_, None)), _)) => printed == raw
    case Some(Url(Some(User(name, Some(_))), rest)) => printed == lib.show(Url(Some(User(name, Some("xxxxx"))), rest))
  }

  /** The stored proxy: the file's, the old one where the file's is what export
      prints of it, or the file's without its password. */
  ghost predicate StoredProxy(lib: Library, proxy: string, had: Option<Context>, stored: string, said: seq<Warning>) {
    if !ProxyLooksMasked(lib, proxy) then stored == proxy && said == []
    else if had.Some? && ProxyPrinted(lib, had.value.proxy, proxy) then stored == had.value.proxy && said == []
    else
      said == [ProxyPasswordMasked]
      && exists name, rest ::
           lib.parse(proxy) == Some(Url(Some(User(name, Some("xxxxx"))), rest)) && stored == lib.show(Url(Some(User(name, None)), rest))
  }

  /** The stored key with its source: the file's without a source, or, for a key
      export printed, the old one with its source where it is known by its mask
      and the context goes where the old one went, and else none. */
  ghost predicate StoredKey(mask: string, c: Context, had: Option<Context>, said: seq<Warning>) {
    if !LooksMasked(mask) then c.apiKey == mask && c.keySource == "" && said == []
    else if had.None? || had.value.apiKey == "" then c.apiKey == c.keySource == "" && said == [NoKey]
    else if c.url != had.value.url then c.apiKey == c.keySource == "" && said == [OtherUrl]
    else if c.proxy != had.value.proxy || c.insecure != had.value.insecure then c.apiKey == c.keySource == "" && said == [OtherTransport]
    else if PrintedFrom(mask, had.value.apiKey) then c.apiKey == had.value.apiKey && c.keySource == had.value.keySource && said == [KeyKept]
    else c.apiKey == c.keySource == "" && said == [OtherKey]
  }

  /** What importing one context stores and says, field by field. */
  ghost predicate StoredFrom(lib: Library, file: Context, had: Option<Context>, c: Context, said: seq<Warning>) {
    && c.url == file.url && c.output == file.output && c.insecure == file.insecure
    && c.profiles == (if file.profiles == [] && had.Some? then had.value.profiles else file.profiles)
    && exists first, second ::
         said == first + second && StoredProxy(lib, file.proxy, had, c.proxy, first) && StoredKey(file.apiKey, c, had, second)
  }

  lemma KeyMaskIsSpelled(key: string)
    ensures IsMaskedAPIKey(key) <==> LooksMasked(key)
  {
    if |key| == 8 && key[4..] == "****" { assert key == key[..4] + "****"; }
    if shown: string :| |shown| == 4 && key == shown + "****" { assert key[4..] == "****"; }
  }

  lemma MaskIsPrinted(mask: string, key: string)
    ensures mask == MaskAPIKey(key) <==> PrintedFrom(mask, key)
  {
    if |key| >= 16 {
      assert key == key[..4] + key[4..];
      if shown, rest: string :| |shown| == 4 && key == shown + rest && mask == shown + "****" {
        assert shown == key[..4];
      }
    }
  }

  lemma ProxyIsStored(lib: Library, proxy: string, had: Option<Context>)
    ensures var (stored, said) := ImportProxy(lib, proxy, had); StoredProxy(lib, proxy, had, stored, said)
    ensures IsMaskedProxy(lib, proxy) <==> ProxyLooksMasked(lib, proxy)
  {
    assert forall raw :: ProxyPrinted(lib, raw, MaskProxy(lib, raw));
    if IsMaskedProxy(lib, proxy) {
      var u := lib.parse(proxy).value;
      assert lib.parse(proxy) == Some(Url(Some(User(u.user.value.name, Some("xxxxx"))), u.rest));
    }
  }

  lemma KeyIsStored(lib: Library, file: Context, had: Option<Context>)
    ensures
      var (c, said) := ImportContext(lib, file, had);
      var first := ImportProxy(lib, file.proxy, had).1;
      exists second :: said == first + second && StoredKey(file.apiKey, c, had, second)
  {
    var (c, said) := ImportContext(lib, file, had);
    var first := ImportProxy(lib, file.proxy, had).1;
    KeyMaskIsSpelled(file.apiKey);
    if had.Some? { MaskIsPrinted(file.apiKey, had.value.apiKey); }
    if IsMaskedAPIKey(file.apiKey) {
      var fault := KeyFault(file.apiKey, c, had);
      var second := match fault case None => [KeyKept] case Some(why) => [why];
      assert said == first + second && StoredKey(file.apiKey, c, had, second);
    } else {
      assert said == first + [] && StoredKey(file.apiKey, c, had, []);
    }
  }

  lemma ContextIsStored(lib: Library, file: Context, had: Option<Context>)
    ensures var (c, said) := ImportContext(lib, file, had); StoredFrom(lib, file, had, c, said)
  {
    ProxyIsStored(lib, file.proxy, had);
    KeyIsStored(lib, file, had);
  }

  /** One import of a file into a config stores, for each context of the file,
      what that context and the one it replaces give, and leaves the rest. */
  lemma FileIsStored(lib: Library, config: Config, file: Config)
    ensures
      var after, said := Import(lib, config, file), Said(Incoming(lib, config, file));
      && after.Keys == config.Keys + file.Keys && said.Keys == file.Keys
      && (forall name | name in config && name !in file :: after[name] == config[name])
      && (forall name | name in file ::
            StoredFrom(lib, file[name], if name in config then Some(config[name]) else None, after[name], said[name]))
  {
    forall name | name in file
      ensures StoredFrom(lib, file[name], Lookup(config, name), Import(lib, config, file)[name], Said(Incoming(lib, config, file))[name])
    {
      ContextIsStored(lib, file[name], Lookup(config, name));
    }
  }

  // -------------------------------------------------------------- what is shown

  /** Export shows nothing of a secret but a key's first four characters, and
      those of a key of 16 or more only: contexts that differ in no more are
      exported alike. */
  lemma ExportHidesSecrets(lib: Library, a: Context, b: Context)
    requires b == a.(apiKey := b.apiKey, proxy := b.proxy, keySource := b.keySource)
    requires a.apiKey == "" <==> b.apiKey == ""
    requires |a.apiKey| >= 16 || |b.apiKey| >= 16 ==> |a.apiKey| >= 16 && |b.apiKey| >= 16 && a.apiKey[..4] == b.apiKey[..4]
    requires
      || a.proxy == b.proxy
      || exists name, p, q, rest ::
           lib.parse(a.proxy) == Some(Url(Some(User(name, Some(p))), rest)) && lib.parse(b.proxy) == Some(Url(Some(User(name, Some(q))), rest))
    ensures Export(lib, a) == Export(lib, b)
    ensures Export(lib, a).url == a.url && Export(lib, a).keySource == "" && (a.apiKey != "" ==> LooksMasked(Export(lib, a).apiKey))
  {
    KeyMaskIsSpelled(MaskAPIKey(a.apiKey));
    MaskIsMasked(a.apiKey);
  }

  // ---------------------------------------------------------- what is never stored

  /** A key of the shape export prints in place of one is only where it was before. */
  ghost predicate StoresNoMaskedKey(config: Config, start: Config) {
    forall name | name in config && IsMaskedAPIKey(config[name].apiKey) ::
      name in start && start[name].apiKey == config[name].apiKey
  }

  /** The same for a proxy whose password has that shape. */
  ghost predicate StoresNoMaskedProxy(lib: Library, config: Config, start: Config) {
    forall name | name in config && IsMaskedProxy(lib, config[name].proxy) ::
      name in start && start[name].proxy == config[name].proxy
  }

  lemma MaskedKeyWasThere(lib: Library, incoming: Context, existing: Option<Context>)
    requires IsMaskedAPIKey(ImportContext(lib, incoming, existing).0.apiKey)
    ensures existing.Some? && existing.value.apiKey == ImportContext(lib, incoming, existing).0.apiKey
  {
  }

  lemma MaskedProxyWasThere(lib: Library, proxy: string, existing: Option<Context>)
    requires IsLawful(lib) && IsMaskedProxy(lib, ImportProxy(lib, proxy, existing).0)
    ensures existing.Some? && existing.value.proxy == ImportProxy(lib, proxy, existing).0
  {
    if IsMaskedProxy(lib, proxy) {
      var u := lib.parse(proxy).value;
      assert u.user.Some?;
    }
  }

  /** No sequence of imports stores a mask for a key, whatever the config and the
      files hold: a mask-shaped key was there before. */
  lemma {:induction false} NoMaskedKeyIsStored(lib: Library, config: Config, files: seq<Config>)
    ensures StoresNoMaskedKey(ImportAll(lib, config, files), config)
  {
    if files != [] {
      var n := |files| - 1;
      var before, file := ImportAll(lib, config, files[..n]), files[n];
      NoMaskedKeyIsStored(lib, config, files[..n]);
      forall name | name in file && IsMaskedAPIKey(Incoming(lib, before, file)[name].0.apiKey)
        ensures name in before && before[name].apiKey == Incoming(lib, before, file)[name].0.apiKey
      {
        MaskedKeyWasThere(lib, file[name], Lookup(before, name));
      }
    }
  }

  /** And none stores a mask for a proxy's password. */
  lemma {:induction false} NoMaskedProxyIsStored(lib: Library, config: Config, files: seq<Config>)
    requires IsLawful(lib)
    ensures StoresNoMaskedProxy(lib, ImportAll(lib, config, files), config)
  {
    if files != [] {
      var n := |files| - 1;
      var before, file := ImportAll(lib, config, files[..n]), files[n];
      NoMaskedProxyIsStored(lib, config, files[..n]);
      forall name | name in file && IsMaskedProxy(lib, Incoming(lib, before, file)[name].0.proxy)
        ensures name in before && before[name].proxy == Incoming(lib, before, file)[name].0.proxy
      {
        MaskedProxyWasThere(lib, file[name].proxy, Lookup(before, name));
      }
    }
  }

  /** No context holds what export prints in place of a key or a password. */
  ghost predicate HoldsNoMask(lib: Library, config: Config) {
    forall name | name in config :: !IsMaskedAPIKey(config[name].apiKey) && !IsMaskedProxy(lib, config[name].proxy)
  }

  /** So no sequence of imports makes a config without masks store one. */
  lemma NoMaskIsEverStored(lib: Library, config: Config, files: seq<Config>)
    requires IsLawful(lib) && HoldsNoMask(lib, config)
    ensures HoldsNoMask(lib, ImportAll(lib, config, files))
  {
    NoMaskedKeyIsStored(lib, config, files);
    NoMaskedProxyIsStored(lib, config, files);
  }

  // -------------------------------------------------------------- where keys go

  /** Where a context's requests, and its key with them, go. */
  predicate SameRoute(a: Context, b: Context) {
    a.url == b.url && a.proxy == b.proxy && a.insecure == b.insecure
  }

  /** A masked entry leaves a context with a key exactly when there was one, the
      stored context goes where that one went, and the mask is that key's; the
      key and its source are then the old ones. */
  lemma MaskedEntryKeepsKey(lib: Library, incoming: Context, existing: Option<Context>)
    requires IsMaskedAPIKey(incoming.apiKey)
    ensures
      var stored := ImportContext(lib, incoming, existing).0;
      && (stored.apiKey != "" <==>
            existing.Some? && existing.value.apiKey != "" && SameRoute(stored, existing.value) && incoming.apiKey == MaskAPIKey(existing.value.apiKey))
      && (stored.apiKey != "" ==> stored.apiKey == existing.value.apiKey && stored.keySource == existing.value.keySource)
      && (stored.apiKey == "" ==> stored.keySource == "")
  {
  }

  /** A key the files do not give in clear is only ever found where it was, in the
      context it was in, going where that one went. */
  ghost predicate StaysPut(config: Config, start: Config, key: string) {
    forall name | name in config && config[name].apiKey == key ::
      name in start && start[name].apiKey == key && SameRoute(config[name], start[name])
  }

  ghost predicate GivesNoKey(file: Config, key: string) {
    forall name | name in file :: file[name].apiKey != key
  }

  lemma ImportMovesNoKey(lib: Library, config: Config, start: Config, file: Config, key: string)
    requires key != "" && StaysPut(config, start, key) && GivesNoKey(file, key)
    ensures StaysPut(Import(lib, config, file), start, key)
  {
    forall name | name in file && ImportContext(lib, file[name], Lookup(config, name)).0.apiKey == key
      ensures name in start && start[name].apiKey == key
      ensures SameRoute(ImportContext(lib, file[name], Lookup(config, name)).0, start[name])
    {
      if IsMaskedAPIKey(file[name].apiKey) {
        MaskedEntryKeepsKey(lib, file[name], Lookup(config, name));
        assert name in config && config[name].apiKey == key;
      }
    }
  }

  /** Whatever files are imported, none of which holds a key, that key is never
      sent anywhere it was not sent before. */
  lemma {:induction false} NoImportMovesAKey(lib: Library, start: Config, files: seq<Config>, key: string)
    requires key != "" && forall file | file in files :: GivesNoKey(file, key)
    ensures StaysPut(ImportAll(lib, start, files), start, key)
  {
    if files != [] {
      var n := |files| - 1;
      forall file | file in files[..n] ensures GivesNoKey(file, key) { assert file in files; }
      NoImportMovesAKey(lib, start, files[..n], key);
      assert files[n] in files;
      ImportMovesNoKey(lib, ImportAll(lib, start, files[..n]), start, files[n], key);
    }
  }

  // -------------------------------------------------------------- the round trip

  lemma MaskIsMasked(key: string)
    ensures IsMaskedAPIKey(MaskAPIKey(key))
  {
    if |key| >= 16 { assert (key[..4] + API_KEY_MASK)[4..] == API_KEY_MASK; }
  }

  /** What export loses nothing of that import cannot put back. */
  predicate Restorable(lib: Library, c: Context) {
    lib.parse(c.proxy).Some? && (c.apiKey == "" ==> c.keySource == "")
  }

  lemma ProxyComesBack(lib: Library, c: Context)
    requires IsLawful(lib)
    ensures ImportProxy(lib, MaskProxy(lib, c.proxy), Some(c)).0 == c.proxy <==> lib.parse(c.proxy).Some?
  {
    var parsed := lib.parse(c.proxy);
    if parsed.Some? && PasswordOf(parsed.value).Some? {
      MaskedProxyIsKnown(lib, c.proxy);
    } else if parsed.Some? {
      assert !IsMaskedProxy(lib, c.proxy);
    } else {
      assert MaskProxy(lib, c.proxy) == "" && !IsMaskedProxy(lib, "");
    }
  }

  lemma MaskedProxyIsKnown(lib: Library, raw: string)
    requires IsLawful(lib) && lib.parse(raw).Some? && PasswordOf(lib.parse(raw).value).Some?
    ensures IsMaskedProxy(lib, MaskProxy(lib, raw))
  {
    assert lib.parse(raw).value.user.Some?;
  }

  /** Importing the masked export of a context over itself changes nothing
      exactly when its proxy parses and it has no key-source without a key. */
  lemma ExportImport(lib: Library, c: Context)
    requires IsLawful(lib)
    ensures ImportContext(lib, Export(lib, c), Some(c)).0 == c <==> Restorable(lib, c)
  {
    ProxyComesBack(lib, c);
    MaskIsMasked(c.apiKey);
  }

  function ExportAll(lib: Library, config: Config): Config {
    map name | name in config :: Export(lib, config[name])
  }

  /** And so for a whole config. */
  lemma ConfigRoundTrip(lib: Library, config: Config)
    requires IsLawful(lib)
    ensures Import(lib, config, ExportAll(lib, config)) == config <==> forall name | name in config :: Restorable(lib, config[name])
  {
    var back := Import(lib, config, ExportAll(lib, config));
    forall name | name in config ensures back[name] == config[name] <==> Restorable(lib, config[name]) {
      ExportImport(lib, config[name]);
    }
  }
}
