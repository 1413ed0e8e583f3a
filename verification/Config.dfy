/** The unified region, domain and internal flag, and the deprecated fields and flags that also set them. */
module Config {
  import opened Prelude
  import opened Strings

  const DEFAULT_REGION := "ap-guangzhou"
  const DEFAULT_DOMAIN := "tencentags.com"
  const PREFIX := "internal."

  /** The fields that decide where requests go. */
  datatype Settings = Settings(
    backend: string, region: string, domain: string, internalMode: bool,
    e2bDomain: string, e2bRegion: string, cloudRegion: string, cloudInternal: bool)

  const DEFAULTS := Settings("e2b", DEFAULT_REGION, DEFAULT_DOMAIN, false, "", "", "", false)

  /** What Init finds: no readable file, values that do not fit the structure, or raw values. */
  datatype Load = Unreadable | Garbled(partial: Settings) | Read(raw: Settings, internalIsSet: bool)

  datatype Command =
    | SetRegion(region: string)
    | SetDomain(domain: string)
    | SetInternal(on: bool)
    | SetE2BDomain(domain: string)
    | SetE2BRegion(region: string)
    | SetCloudRegion(region: string)
    | SetCloudInternal(on: bool)

  datatype Flags = Flags(
    backend: string, region: string, domain: string, internalMode: Option<bool>,
    e2bDomain: string, e2bRegion: string, cloudRegion: string, cloudInternal: Option<bool>)

  function Unprefixed(domain: string): string {
    if HasPrefix(domain, PREFIX) then domain[|PREFIX|..] else domain
  }

  function Prefixed(domain: string): string {
    if HasPrefix(domain, PREFIX) then domain else PREFIX + domain
  }

  /** The first of the two that is not empty. */
  function Or(a: string, b: string): string { if a != "" then a else b }

  /** The region field that belongs to the backend in use. */
  function OwnRegion(s: Settings): string {
    if s.backend == "cloud" then s.cloudRegion else if s.backend == "e2b" then s.e2bRegion else ""
  }

  function Resolved(s: Settings, internalIsSet: bool): Settings {
    var on := s.internalMode || (!internalIsSet && s.cloudInternal);
    var base := Or(s.domain, Or(s.e2bDomain, DEFAULT_DOMAIN));
    s.(region := Or(s.region, Or(OwnRegion(s), Or(s.cloudRegion, Or(s.e2bRegion, DEFAULT_REGION)))),
       domain := if on then Prefixed(base) else base,
       internalMode := on)
  }

  function AtDomain(s: Settings, domain: string): Settings {
    s.(domain := if s.internalMode then Prefixed(domain) else domain)
  }

  function AtMode(s: Settings, on: bool): Settings {
    s.(internalMode := on, domain := if on then Prefixed(s.domain) else Unprefixed(s.domain))
  }

  function AtDefaultRegion(s: Settings, region: string): Settings {
    if s.region == DEFAULT_REGION then s.(region := region) else s
  }

  function AtBackend(s: Settings, backend: string): Settings {
    if backend != "" then s.(backend := backend) else s
  }

  function Do(s: Settings, c: Command): Settings {
    match c
    case SetRegion(region) => s.(region := region)
    case SetDomain(domain) => AtDomain(s, domain)
    case SetInternal(on) => AtMode(s, on)
    case SetE2BDomain(domain) =>
      var t := s.(e2bDomain := domain);
      if t.domain == DEFAULT_DOMAIN || t.domain == PREFIX + DEFAULT_DOMAIN then AtDomain(t, domain) else t
    case SetE2BRegion(region) => AtDefaultRegion(s.(e2bRegion := region), region)
    case SetCloudRegion(region) => AtDefaultRegion(s.(cloudRegion := region), region)
    case SetCloudInternal(on) => AtMode(s.(cloudInternal := on), on)
  }

  function Run(s: Settings, commands: seq<Command>): Settings {
    if commands == [] then s else Do(Run(s, commands[..|commands| - 1]), commands[|commands| - 1])
  }

  function Started(load: Load): Settings {
    match load
    case Unreadable => DEFAULTS
    case Garbled(partial) => partial
    case Read(raw, internalIsSet) => Resolved(raw, internalIsSet)
  }

  function When(given: bool, c: Command): seq<Command> { if given then [c] else [] }

  /** The commands that the deprecated flags stand for. They come first. */
  function Legacy(f: Flags): seq<Command> {
    When(f.e2bDomain != "", SetE2BDomain(f.e2bDomain)) +
    When(f.e2bRegion != "", SetE2BRegion(f.e2bRegion)) +
    When(f.cloudRegion != "", SetCloudRegion(f.cloudRegion)) +
    When(f.cloudInternal.Some?, SetCloudInternal(f.cloudInternal.GetOr(false)))
  }

  function Unified(f: Flags): seq<Command> {
    When(f.region != "", SetRegion(f.region)) +
    When(f.domain != "", SetDomain(f.domain)) +
    When(f.internalMode.Some?, SetInternal(f.internalMode.GetOr(false)))
  }

  function Final(load: Load, f: Flags): Settings {
    Run(Run(AtBackend(Started(load), f.backend), Legacy(f)), Unified(f))
  }

  class Config {
    var backend: string
    var region: string
    var domain: string
    var internalMode: bool
    var e2bDomain: string
    var e2bRegion: string
    var cloudRegion: string
    var cloudInternal: bool

    function State(): Settings
      reads this
    {
      Settings(backend, region, domain, internalMode, e2bDomain, e2bRegion, cloudRegion, cloudInternal)
    }

    constructor (s: Settings)
      ensures State() == s
    {
      backend, region, domain, internalMode := s.backend, s.region, s.domain, s.internalMode;
      e2bDomain, e2bRegion, cloudRegion, cloudInternal := s.e2bDomain, s.e2bRegion, s.cloudRegion, s.cloudInternal;
    }

    method ResolveDeprecatedFields(internalIsSet: bool)
      modifies this
      ensures State() == Resolved(old(State()), internalIsSet)
    {
      ResolveRegion();
      if domain == "" {
        if e2bDomain != "" { domain := e2bDomain; } else { domain := DEFAULT_DOMAIN; }
      }
      if !internalIsSet && cloudInternal { internalMode := true; }
      if internalMode && !HasPrefix(domain, PREFIX) { domain := PREFIX + domain; }
    }

    method ResolveRegion()
      modifies this`region
      ensures State() == old(State()).(region := region)
      ensures region ==
        if old(region) != "" then old(region)
        else if backend == "e2b" && e2bRegion != "" then e2bRegion
        else if cloudRegion != "" then cloudRegion
        else if e2bRegion != "" then e2bRegion
        else "ap-guangzhou"
    {
      if region == "" {
        if backend == "cloud" {
          if cloudRegion != "" { region := cloudRegion; }
        } else if backend == "e2b" {
          if e2bRegion != "" { region := e2bRegion; }
        }
        if region == "" {
          if cloudRegion != "" { region := cloudRegion; } else if e2bRegion != "" { region := e2bRegion; }
        }
        if region == "" { region := DEFAULT_REGION; }
      }
    }

    method SetRegion(region: string)
      modifies this`region
      ensures State() == Do(old(State()), Command.SetRegion(region))
    {
      this.region := region;
    }

    method SetDomain(domain: string)
      modifies this`domain
      ensures State() == Do(old(State()), Command.SetDomain(domain))
    {
      this.domain := domain;
      if internalMode && !HasPrefix(this.domain, PREFIX) { this.domain := PREFIX + this.domain; }
    }

    method SetInternal(on: bool)
      modifies this`internalMode, this`domain
      ensures State() == Do(old(State()), Command.SetInternal(on))
    {
      internalMode := on;
      if on && !HasPrefix(domain, PREFIX) {
        domain := PREFIX + domain;
      } else if !on && HasPrefix(domain, PREFIX) {
        domain := domain[|PREFIX|..];
      }
    }

    method SetE2BDomain(domain: string)
      modifies this`e2bDomain, this`domain
      ensures State() == Do(old(State()), Command.SetE2BDomain(domain))
    {
      e2bDomain := domain;
      if this.domain == DEFAULT_DOMAIN || this.domain == PREFIX + DEFAULT_DOMAIN { SetDomain(domain); }
    }

    method SetE2BRegion(region: string)
      modifies this`e2bRegion, this`region
      ensures State() == Do(old(State()), Command.SetE2BRegion(region))
    {
      e2bRegion := region;
      if this.region == DEFAULT_REGION { this.region := region; }
    }

    method SetCloudRegion(region: string)
      modifies this`cloudRegion, this`region
      ensures State() == Do(old(State()), Command.SetCloudRegion(region))
    {
      cloudRegion := region;
      if this.region == DEFAULT_REGION { this.region := region; }
    }

    method SetCloudInternal(on: bool)
      modifies this`cloudInternal, this`internalMode, this`domain
      ensures State() == Do(old(State()), Command.SetCloudInternal(on))
    {
      cloudInternal := on;
      SetInternal(on);
    }

    method ApplyLegacy(f: Flags)
      modifies this
      ensures State() == Run(old(State()), Legacy(f))
    {
      ghost var s := State();
      var c1 := When(f.e2bDomain != "", Command.SetE2BDomain(f.e2bDomain));
      var c2 := When(f.e2bRegion != "", Command.SetE2BRegion(f.e2bRegion));
      var c3 := When(f.cloudRegion != "", Command.SetCloudRegion(f.cloudRegion));
      if f.e2bDomain != "" { SetE2BDomain(f.e2bDomain); }
      RunWhen(s, [], f.e2bDomain != "", Command.SetE2BDomain(f.e2bDomain));
      assert [] + c1 == c1;
      if f.e2bRegion != "" { SetE2BRegion(f.e2bRegion); }
      RunWhen(s, c1, f.e2bRegion != "", Command.SetE2BRegion(f.e2bRegion));
      if f.cloudRegion != "" { SetCloudRegion(f.cloudRegion); }
      RunWhen(s, c1 + c2, f.cloudRegion != "", Command.SetCloudRegion(f.cloudRegion));
      if f.cloudInternal.Some? { SetCloudInternal(f.cloudInternal.value); }
      RunWhen(s, c1 + c2 + c3, f.cloudInternal.Some?, Command.SetCloudInternal(f.cloudInternal.GetOr(false)));
    }

    method ApplyUnified(f: Flags)
      modifies this
      ensures State() == Run(old(State()), Unified(f))
    {
      ghost var s := State();
      var c1 := When(f.region != "", Command.SetRegion(f.region));
      var c2 := When(f.domain != "", Command.SetDomain(f.domain));
      if f.region != "" { SetRegion(f.region); }
      RunWhen(s, [], f.region != "", Command.SetRegion(f.region));
      assert [] + c1 == c1;
      if f.domain != "" { SetDomain(f.domain); }
      RunWhen(s, c1, f.domain != "", Command.SetDomain(f.domain));
      if f.internalMode.Some? { SetInternal(f.internalMode.value); }
      RunWhen(s, c1 + c2, f.internalMode.Some?, Command.SetInternal(f.internalMode.GetOr(false)));
    }
  }

  /** The start of the program: load, then apply the flags in the order of their priority. */
  method InitConfig(load: Load, f: Flags) returns (c: Config)
    ensures fresh(c) && c.State() == Final(load, f)
  {
    match load {
      case Unreadable =>
        c := new Config(DEFAULTS);
      case Garbled(partial) =>
        c := new Config(partial);
      case Read(raw, internalIsSet) =>
        c := new Config(raw);
        c.ResolveDeprecatedFields(internalIsSet);
    }
    assert c.State() == Started(load);
    if f.backend != "" { c.backend := f.backend; }
    assert c.State() == AtBackend(Started(load), f.backend);
    c.ApplyLegacy(f);
    c.ApplyUnified(f);
  }

  lemma RunWhen(s: Settings, done: seq<Command>, given: bool, c: Command)
    ensures Run(s, done + When(given, c)) == if given then Do(Run(s, done), c) else Run(s, done)
  {
    if given {
      assert (done + [c])[..|done|] == done;
    } else {
      assert done + [] == done;
    }
  }

  // -- what the settings stand for ------------------------------------------------------------

  /** A base domain and whether internal endpoints are used. */
  datatype Place = Place(base: string, internalMode: bool)

  function Address(p: Place): string { if p.internalMode then PREFIX + p.base else p.base }

  predicate Stands(s: Settings, p: Place) { s.internalMode == p.internalMode && s.domain == Address(p) }

  function Move(p: Place, c: Command): Place {
    match c
    case SetDomain(domain) => p.(base := domain)
    case SetInternal(on) => p.(internalMode := on)
    case SetCloudInternal(on) => p.(internalMode := on)
    case SetE2BDomain(domain) => if p.base == DEFAULT_DOMAIN then p.(base := domain) else p
    case _ => p
  }

  function MoveAll(p: Place, commands: seq<Command>): Place {
    if commands == [] then p else Move(MoveAll(p, commands[..|commands| - 1]), commands[|commands| - 1])
  }

  predicate Bare(domain: string) { !HasPrefix(domain, PREFIX) }

  predicate NamesBareDomain(c: Command) {
    (c.SetDomain? || c.SetE2BDomain?) ==> Bare(c.domain)
  }

  lemma PrefixedBare(domain: string)
    requires Bare(domain)
    ensures HasPrefix(PREFIX + domain, PREFIX) && Unprefixed(PREFIX + domain) == domain
    ensures Prefixed(domain) == PREFIX + domain && Unprefixed(domain) == domain
  {
    assert (PREFIX + domain)[..|PREFIX|] == PREFIX;
    assert (PREFIX + domain)[|PREFIX|..] == domain;
  }

  lemma AddressInjective(p: Place)
    requires Bare(p.base)
    ensures (Address(p) == DEFAULT_DOMAIN || Address(p) == PREFIX + DEFAULT_DOMAIN) <==> p.base == DEFAULT_DOMAIN
  {
    PrefixedBare(p.base);
    assert DEFAULT_DOMAIN[0] == 't' && PREFIX[0] == 'i';
    assert Bare(DEFAULT_DOMAIN);
    PrefixedBare(DEFAULT_DOMAIN);
    if p.internalMode {
      assert Address(p)[0] == 'i';
    }
  }

  lemma DoMoves(s: Settings, p: Place, c: Command)
    requires Stands(s, p) && Bare(p.base) && NamesBareDomain(c)
    ensures Stands(Do(s, c), Move(p, c)) && Bare(Move(p, c).base)
  {
    PrefixedBare(p.base);
    AddressInjective(p);
    if c.SetDomain? || c.SetE2BDomain? { PrefixedBare(c.domain); }
  }

  /** Any sequence of setters acts on the pair alone: the prefix is there exactly when internal, and only once. */
  lemma {:induction false} RunsRefine(s: Settings, p: Place, commands: seq<Command>)
    requires Stands(s, p) && Bare(p.base)
    requires forall i :: 0 <= i < |commands| ==> NamesBareDomain(commands[i])
    ensures Stands(Run(s, commands), MoveAll(p, commands)) && Bare(MoveAll(p, commands).base)
  {
    if commands != [] {
      var n := |commands| - 1;
      RunsRefine(s, p, commands[..n]);
      DoMoves(Run(s, commands[..n]), MoveAll(p, commands[..n]), commands[n]);
    }
  }

  function ControlPlaneEndpoint(s: Settings): string {
    if s.internalMode then "ags.internal.tencentcloudapi.com" else "ags.tencentcloudapi.com"
  }

  function E2BControlPlaneEndpoint(s: Settings): string {
    "https://api." + s.region + "." + s.domain
  }

  /** After any setters, both backends' endpoints are internal or neither is. */
  lemma EndpointsAgree(s: Settings, p: Place, commands: seq<Command>)
    requires Stands(s, p) && Bare(p.base)
    requires forall i :: 0 <= i < |commands| ==> NamesBareDomain(commands[i])
    ensures
      var t, q := Run(s, commands), MoveAll(p, commands);
      && E2BControlPlaneEndpoint(t) ==
           "https://api." + t.region + "." + (if q.internalMode then PREFIX else "") + q.base
      && (ControlPlaneEndpoint(t) == "ags.internal.tencentcloudapi.com" <==> HasPrefix(t.domain, PREFIX))
  {
    RunsRefine(s, p, commands);
    var t, q := Run(s, commands), MoveAll(p, commands);
    PrefixedBare(q.base);
    assert |"ags.internal.tencentcloudapi.com"| != |"ags.tencentcloudapi.com"|;
    if q.internalMode {
      assert "https://api." + t.region + "." + (PREFIX + q.base) == "https://api." + t.region + "." + PREFIX + q.base;
    } else {
      assert "https://api." + t.region + "." + "" + q.base == "https://api." + t.region + "." + q.base;
    }
  }

  /** After loading, the pair is the configured base domain and mode. */
  lemma ResolvedStands(s: Settings, internalIsSet: bool)
    ensures
      var base := Or(s.domain, Or(s.e2bDomain, DEFAULT_DOMAIN));
      Bare(base) ==>
        Stands(Resolved(s, internalIsSet), Place(base, s.internalMode || (!internalIsSet && s.cloudInternal)))
  {
  }

  /** Setting a domain and then the mode gives the address of that pair exactly when the domain is bare. */
  lemma AddressIffBare(s: Settings, domain: string, on: bool)
    ensures Stands(Run(s, [SetDomain(domain), SetInternal(on)]), Place(domain, on)) <==> Bare(domain)
  {
    RunTwo(s, SetDomain(domain), SetInternal(on));
    SetBoth(s, domain, on);
    if !Bare(domain) {
      assert |Unprefixed(domain)| < |domain| < |PREFIX + domain|;
    } else {
      PrefixedBare(domain);
    }
  }

  lemma RunTwo(s: Settings, c: Command, d: Command)
    ensures Run(s, [c, d]) == Do(Do(s, c), d)
  {
    assert [c, d][..1] == [c] && [c][..0] == [];
    assert Run(s, [c]) == Do(Run(s, []), c);
  }

  /** Whatever came before, a domain and a mode set last decide both fields, prefixed or not. */
  lemma SetBoth(s: Settings, domain: string, on: bool)
    ensures
      var t := AtMode(AtDomain(s, domain), on);
      t.internalMode == on && t.domain == if on then Prefixed(domain) else Unprefixed(domain)
  {
    if Bare(domain) { PrefixedBare(domain); }
  }

  lemma UnifiedRun(t: Settings, f: Flags)
    ensures
      var r := if f.region != "" then t.(region := f.region) else t;
      var d := if f.domain != "" then AtDomain(r, f.domain) else r;
      Run(t, Unified(f)) == if f.internalMode.Some? then AtMode(d, f.internalMode.value) else d
  {
    var c1 := When(f.region != "", SetRegion(f.region));
    var c2 := When(f.domain != "", SetDomain(f.domain));
    RunWhen(t, [], f.region != "", SetRegion(f.region));
    assert [] + c1 == c1;
    RunWhen(t, c1, f.domain != "", SetDomain(f.domain));
    RunWhen(t, c1 + c2, f.internalMode.Some?, SetInternal(f.internalMode.GetOr(false)));
  }

  lemma LegacyRun(t: Settings, f: Flags)
    ensures
      var a := if f.e2bDomain != "" then Do(t, SetE2BDomain(f.e2bDomain)) else t;
      var b := if f.e2bRegion != "" then AtDefaultRegion(a.(e2bRegion := f.e2bRegion), f.e2bRegion) else a;
      var c := if f.cloudRegion != "" then AtDefaultRegion(b.(cloudRegion := f.cloudRegion), f.cloudRegion) else b;
      Run(t, Legacy(f)) ==
        if f.cloudInternal.Some? then AtMode(c.(cloudInternal := f.cloudInternal.value), f.cloudInternal.value) else c
  {
    var c1 := When(f.e2bDomain != "", SetE2BDomain(f.e2bDomain));
    var c2 := When(f.e2bRegion != "", SetE2BRegion(f.e2bRegion));
    var c3 := When(f.cloudRegion != "", SetCloudRegion(f.cloudRegion));
    RunWhen(t, [], f.e2bDomain != "", SetE2BDomain(f.e2bDomain));
    assert [] + c1 == c1;
    RunWhen(t, c1, f.e2bRegion != "", SetE2BRegion(f.e2bRegion));
    RunWhen(t, c1 + c2, f.cloudRegion != "", SetCloudRegion(f.cloudRegion));
    RunWhen(t, c1 + c2 + c3, f.cloudInternal.Some?, SetCloudInternal(f.cloudInternal.GetOr(false)));
  }

  lemma LegacyMode(t: Settings, f: Flags)
    ensures Run(t, Legacy(f)).internalMode == f.cloudInternal.GetOr(t.internalMode)
  {
    LegacyRun(t, f);
  }

  /** A deprecated region flag only replaces the default region. */
  function RegionAfter(region: string, legacy: string): string {
    if legacy != "" && region == DEFAULT_REGION then legacy else region
  }

  lemma LegacyRegion(t: Settings, f: Flags)
    ensures Run(t, Legacy(f)).region == RegionAfter(RegionAfter(t.region, f.e2bRegion), f.cloudRegion)
  {
    LegacyRun(t, f);
  }

  lemma UnifiedRegion(t: Settings, f: Flags)
    ensures Run(t, Unified(f)).region == Or(f.region, t.region)
  {
    UnifiedRun(t, f);
  }

  /**
   * The region flag wins; a configured region that is not the default beats the deprecated flags; of those the E2B
   * one wins, whichever backend is used, unless it names the default region itself.
   */
  lemma RegionFlagDecides(load: Load, f: Flags)
    ensures
      var configured := Started(load).region;
      Final(load, f).region ==
        if f.region != "" then f.region
        else if configured != DEFAULT_REGION then configured
        else if f.e2bRegion != "" && f.e2bRegion != DEFAULT_REGION then f.e2bRegion
        else Or(f.cloudRegion, DEFAULT_REGION)
  {
    var s := AtBackend(Started(load), f.backend);
    assert s.region == Started(load).region;
    LegacyRegion(s, f);
    UnifiedRegion(Run(s, Legacy(f)), f);
  }

  /**
   * For every domain flag, prefixed or not: with the internal flag beside it neither the file nor the deprecated
   * flags matter; without it they matter through the mode alone.
   */
  lemma DomainFlagDecides(load: Load, f: Flags)
    requires f.domain != ""
    ensures
      var r := Final(load, f);
      var mode := f.cloudInternal.GetOr(Started(load).internalMode);
      r.internalMode == f.internalMode.GetOr(mode) &&
      r.domain == match f.internalMode
        case Some(on) => if on then Prefixed(f.domain) else Unprefixed(f.domain)
        case None => if mode then Prefixed(f.domain) else f.domain
  {
    var s := AtBackend(Started(load), f.backend);
    var t := Run(s, Legacy(f));
    LegacyMode(s, f);
    UnifiedRun(t, f);
    match f.internalMode
    case Some(on) => SetBoth(if f.region != "" then t.(region := f.region) else t, f.domain, on);
    case None =>
  }

  /** What loading makes of the raw values.  A configured region stands.  Without one the deprecated field of the
      backend in use comes first; a backend other than the two, or one whose field is empty, takes the cloud field
      before the E2B one.  The domain falls back to the deprecated field, and the deprecated internal flag counts only
      when the unified one is not set.  Nothing else changes. */
  lemma LoadingResolves(s: Settings, internalIsSet: bool)
    ensures var r := Resolved(s, internalIsSet);
      && r == s.(region := r.region, domain := r.domain, internalMode := r.internalMode)
      && (s.region != "" ==> r.region == s.region)
      && (s.region == "" && s.backend == "cloud" && s.cloudRegion != "" ==> r.region == s.cloudRegion)
      && (s.region == "" && s.backend == "e2b" && s.e2bRegion != "" ==> r.region == s.e2bRegion)
      && (s.region == "" && s.backend == "e2b" && s.e2bRegion == "" && s.cloudRegion != "" ==>
            r.region == s.cloudRegion)
      && (s.region == "" && s.backend != "e2b" && s.cloudRegion != "" ==> r.region == s.cloudRegion)
      && (s.region == "" && s.cloudRegion == "" && s.e2bRegion != "" ==> r.region == s.e2bRegion)
      && (s.region == "" && s.cloudRegion == "" && s.e2bRegion == "" ==> r.region == "ap-guangzhou")
      && (r.internalMode <==> s.internalMode || (s.cloudInternal && !internalIsSet))
      && var base := if s.domain != "" then s.domain else if s.e2bDomain != "" then s.e2bDomain else "tencentags.com";
         r.domain == if r.internalMode && !("internal." <= base) then "internal." + base else base
  {
    assert |"cloud"| == 5 && |"e2b"| == 3;
  }

  lemma {:induction false} RunKeepsBackend(s: Settings, commands: seq<Command>)
    ensures Run(s, commands).backend == s.backend
  {
    if commands != [] { RunKeepsBackend(s, commands[..|commands| - 1]); }
  }

  /** The backend flag wins over the configured backend and changes nothing else: the region has been chosen by then,
      for the configured backend. */
  lemma BackendFlagDecides(load: Load, f: Flags)
    ensures Final(load, f).backend == if f.backend != "" then f.backend else Started(load).backend
    ensures var t := Final(load, f.(backend := ""));
      Final(load, f) == if f.backend != "" then t.(backend := f.backend) else t
  {
    var s := Started(load);
    OtherFlagsOnly(f);
    RunKeepsBackend(AtBackend(s, f.backend), Legacy(f));
    RunKeepsBackend(Run(AtBackend(s, f.backend), Legacy(f)), Unified(f));
    if f.backend != "" { BothIgnoreBackend(s, f, f.backend); }
  }

  lemma OtherFlagsOnly(f: Flags)
    ensures Legacy(f.(backend := "")) == Legacy(f) && Unified(f.(backend := "")) == Unified(f)
  {
  }

  lemma BothIgnoreBackend(s: Settings, f: Flags, backend: string)
    ensures Run(Run(s.(backend := backend), Legacy(f)), Unified(f))
         == Run(Run(s, Legacy(f)), Unified(f)).(backend := backend)
  {
    RunIgnoresBackend(s, Legacy(f), backend);
    RunIgnoresBackend(Run(s, Legacy(f)), Unified(f), backend);
  }

  lemma DoIgnoresBackend(s: Settings, c: Command, backend: string)
    ensures Do(s.(backend := backend), c) == Do(s, c).(backend := backend)
  {
  }

  lemma {:induction false} RunIgnoresBackend(s: Settings, commands: seq<Command>, backend: string)
    ensures Run(s.(backend := backend), commands) == Run(s, commands).(backend := backend)
  {
    if commands != [] {
      var n := |commands| - 1;
      RunIgnoresBackend(s, commands[..n], backend);
      DoIgnoresBackend(Run(s, commands[..n]), commands[n], backend);
    }
  }

  /** Without flags the settings are the defaults when nothing can be read, and raw when they do not fit the
      structure: then no default and no deprecated field is applied. */
  lemma WithoutFlags(load: Load)
    ensures var t := Final(load, Flags("", "", "", None, "", "", "", None));
      && (load.Unreadable? ==> t == Settings("e2b", "ap-guangzhou", "tencentags.com", false, "", "", "", false))
      && (load.Garbled? ==> t == load.partial)
      && (load.Read? ==> t == Resolved(load.raw, load.internalIsSet))
  {
    var f := Flags("", "", "", None, "", "", "", None);
    LegacyRun(Started(load), f);
    UnifiedRun(Started(load), f);
  }
}
