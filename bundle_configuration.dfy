/** TemplateConfigBundleConfiguration: the fluent settings object of the
    template-config bundle. The two template-source overrides,
    resourceIncludePath and fileIncludePath, exclude each other; charset and
    outputPath are unconstrained; custom providers form an insertion-ordered
    set compared by reference. */
module BundleConfiguration {
  import opened Wrappers

  /** The encoding used for the template and the rendered output, named only. */
  datatype Charset = Charset(name: string)

  const Utf8: Charset := Charset("UTF-8")

  /** A custom variables provider, compared by reference: LinkedHashSet's
      behaviour for providers that keep Object.equals. */
  type Provider = object

  /** The IllegalStateException the include-path setters throw, with its message. */
  datatype ConfigError = IllegalState(message: string)

  const FileIncludePathPresent: ConfigError :=
    IllegalState("A value for fileIncludePath is already present; "
                 + "only one of resourceIncludePath or fileIncludePath may be specified.")

  const ResourceIncludePathPresent: ConfigError :=
    IllegalState("A value for resourceIncludePath is already present; "
                 + "only one of resourceIncludePath or fileIncludePath may be specified.")

  predicate NoDuplicates(s: seq<Provider>) {
    forall i, j :: 0 <= i < j < |s| ==> s[i] != s[j]
  }

  /** The value of all five fields of a configuration. */
  datatype Settings = Settings(
    charset: Charset,
    resourceIncludePath: Option<string>,
    fileIncludePath: Option<string>,
    outputPath: Option<string>,
    customProviders: seq<Provider>)

  /** At most one template-source override is present, and the provider
      sequence is a set. */
  predicate Consistent(s: Settings) {
    && !(s.resourceIncludePath.Some? && s.fileIncludePath.Some?)
    && NoDuplicates(s.customProviders)
  }

  /** LinkedHashSet.add: a new provider goes at the end, one already present
      stays where it is and nothing changes. */
  function InsertProvider(ps: seq<Provider>, x: Provider): (r: seq<Provider>)
    ensures x in r && forall y :: y in ps ==> y in r
    ensures forall y :: y in r ==> y in ps || y == x
    ensures |ps| <= |r| && r[..|ps|] == ps
    ensures x in ps ==> r == ps
    ensures x !in ps ==> r == ps + [x]
    ensures NoDuplicates(ps) ==> NoDuplicates(r)
  {
    if x in ps then ps else ps + [x]
  }

  function WithCharset(s: Settings, c: Charset): (r: Settings)
    ensures r.charset == c
    ensures r.(charset := s.charset) == s
    ensures Consistent(s) ==> Consistent(r)
  {
    s.(charset := c)
  }

  function WithResourceIncludePath(s: Settings, path: string): (r: Result<Settings, ConfigError>)
    ensures r.Failure? <==> s.fileIncludePath.Some?
    ensures r.Failure? ==> r.error == FileIncludePathPresent
    ensures r.Success? ==> r.value.resourceIncludePath == Some(path)
    ensures r.Success? ==> r.value.(resourceIncludePath := s.resourceIncludePath) == s
    ensures Consistent(s) && r.Success? ==> Consistent(r.value)
  {
    if s.fileIncludePath.Some? then Failure(FileIncludePathPresent)
    else Success(s.(resourceIncludePath := Some(path)))
  }

  function WithFileIncludePath(s: Settings, path: string): (r: Result<Settings, ConfigError>)
    ensures r.Failure? <==> s.resourceIncludePath.Some?
    ensures r.Failure? ==> r.error == ResourceIncludePathPresent
    ensures r.Success? ==> r.value.fileIncludePath == Some(path)
    ensures r.Success? ==> r.value.(fileIncludePath := s.fileIncludePath) == s
    ensures Consistent(s) && r.Success? ==> Consistent(r.value)
  {
    if s.resourceIncludePath.Some? then Failure(ResourceIncludePathPresent)
    else Success(s.(fileIncludePath := Some(path)))
  }

  function WithOutputPath(s: Settings, path: string): (r: Settings)
    ensures r.outputPath == Some(path)
    ensures r.(outputPath := s.outputPath) == s
    ensures Consistent(s) ==> Consistent(r)
  {
    s.(outputPath := Some(path))
  }

  function WithCustomProvider(s: Settings, x: Provider): (r: Settings)
    ensures r.customProviders == InsertProvider(s.customProviders, x)
    ensures r.(customProviders := s.customProviders) == s
    ensures Consistent(s) ==> Consistent(r)
  {
    s.(customProviders := InsertProvider(s.customProviders, x))
  }

  /** One call of a public setter, as it appears in a chain of calls. */
  datatype Call =
    | SetCharset(charset: Charset)
    | SetResourceIncludePath(path: string)
    | SetFileIncludePath(path: string)
    | SetOutputPath(path: string)
    | AddCustomProvider(provider: Provider)

  /** The call would throw: it sets one include path while the other is present. */
  predicate Blocked(s: Settings, call: Call) {
    || (call.SetResourceIncludePath? && s.fileIncludePath.Some?)
    || (call.SetFileIncludePath? && s.resourceIncludePath.Some?)
  }

  function Apply(s: Settings, call: Call): (r: Result<Settings, ConfigError>)
    ensures r.Failure? <==> Blocked(s, call)
    ensures Consistent(s) && r.Success? ==> Consistent(r.value)
  {
    match call
    case SetCharset(c) => Success(WithCharset(s, c))
    case SetResourceIncludePath(p) => WithResourceIncludePath(s, p)
    case SetFileIncludePath(p) => WithFileIncludePath(s, p)
    case SetOutputPath(p) => Success(WithOutputPath(s, p))
    case AddCustomProvider(x) => Success(WithCustomProvider(s, x))
  }

  /** Where a chain of calls leaves the configuration, and the exception that
      ended it early, if any. */
  datatype Outcome = Outcome(state: Settings, error: Option<ConfigError>)

  /** The chain config.c0(..).c1(..)...: each call acts on the object the
      previous one returned; the first exception ends the chain, and the calls
      before it keep their effect. */
  function Run(s: Settings, calls: seq<Call>): Outcome
    decreases |calls|
  {
    if calls == [] then Outcome(s, None)
    else match Apply(s, calls[0])
      case Failure(e) => Outcome(s, Some(e))
      case Success(s') => Run(s', calls[1..])
  }

  /** No chain of calls, whether it completes or throws, can leave both include
      paths present or a provider twice in the set. */
  lemma {:induction false} RunPreservesConsistency(s: Settings, calls: seq<Call>)
    requires Consistent(s)
    ensures Consistent(Run(s, calls).state)
    decreases |calls|
  {
    if calls != [] && Apply(s, calls[0]).Success? {
      RunPreservesConsistency(Apply(s, calls[0]).value, calls[1..]);
    }
  }

  /** Once a call is blocked it stays blocked: no setter clears an include path. */
  lemma StaysBlocked(s: Settings, call: Call, later: Call)
    requires Blocked(s, later) && Apply(s, call).Success?
    ensures Blocked(Apply(s, call).value, later)
  {
  }

  /** A chain holding a call that is blocked from the start throws, with one of
      the two exclusion messages. */
  lemma {:induction false} BlockedCallAheadFails(s: Settings, calls: seq<Call>, j: nat)
    requires j < |calls| && Blocked(s, calls[j])
    ensures Run(s, calls).error.Some?
    ensures Run(s, calls).error.value in {FileIncludePathPresent, ResourceIncludePathPresent}
    decreases |calls|
  {
    var r := Apply(s, calls[0]);
    if r.Success? {
      assert j != 0;
      StaysBlocked(s, calls[0], calls[j]);
      assert calls[1..][j - 1] == calls[j];
      BlockedCallAheadFails(r.value, calls[1..], j - 1);
    } else {
      assert calls[0].SetResourceIncludePath? || calls[0].SetFileIncludePath?;
    }
  }

  /** A chain that sets both include paths, in either order, throws an
      IllegalStateException, whatever the starting configuration. */
  lemma {:induction false} BothIncludePathsFail(s: Settings, calls: seq<Call>, i: nat, j: nat)
    requires i < |calls| && calls[i].SetResourceIncludePath?
    requires j < |calls| && calls[j].SetFileIncludePath?
    ensures Run(s, calls).error.Some?
    ensures Run(s, calls).error.value in {FileIncludePathPresent, ResourceIncludePathPresent}
    decreases |calls|
  {
    var r := Apply(s, calls[0]);
    if r.Failure? {
      assert calls[0].SetResourceIncludePath? || calls[0].SetFileIncludePath?;
    } else if i == 0 {
      assert calls[1..][j - 1] == calls[j];
      BlockedCallAheadFails(r.value, calls[1..], j - 1);
    } else if j == 0 {
      assert calls[1..][i - 1] == calls[i];
      BlockedCallAheadFails(r.value, calls[1..], i - 1);
    } else {
      assert calls[1..][i - 1] == calls[i] && calls[1..][j - 1] == calls[j];
      BothIncludePathsFail(r.value, calls[1..], i - 1, j - 1);
    }
  }

  /** The provider set after addCustomProvider(xs[0]), addCustomProvider(xs[1]), ... */
  function AddAll(ps: seq<Provider>, xs: seq<Provider>): seq<Provider>
    decreases |xs|
  {
    if xs == [] then ps else AddAll(InsertProvider(ps, xs[0]), xs[1..])
  }

  /** Successive adds keep the earlier providers in place at the front, hold
      exactly the providers added or already there, and never hold one twice. */
  lemma {:induction false} AddAllProperties(ps: seq<Provider>, xs: seq<Provider>)
    ensures |ps| <= |AddAll(ps, xs)| && AddAll(ps, xs)[..|ps|] == ps
    ensures forall y :: y in ps || y in xs ==> y in AddAll(ps, xs)
    ensures forall y :: y in AddAll(ps, xs) ==> y in ps || y in xs
    ensures NoDuplicates(ps) ==> NoDuplicates(AddAll(ps, xs))
    decreases |xs|
  {
    if xs != [] {
      var ps' := InsertProvider(ps, xs[0]);
      AddAllProperties(ps', xs[1..]);
      assert AddAll(ps, xs)[..|ps|] == AddAll(ps, xs)[..|ps'|][..|ps|];
      assert xs == [xs[0]] + xs[1..];
    }
  }

  /** Adding providers that are all present already changes nothing. */
  lemma {:induction false} AddAllPresent(ps: seq<Provider>, xs: seq<Provider>)
    requires forall x :: x in xs ==> x in ps
    ensures AddAll(ps, xs) == ps
    decreases |xs|
  {
    if xs != [] {
      assert xs[0] in xs;
      forall x | x in xs[1..] ensures x in ps {
        assert x in xs;
      }
      AddAllPresent(ps, xs[1..]);
    }
  }

  /** Repeating the same adds is idempotent. */
  lemma AddAllIdempotent(ps: seq<Provider>, xs: seq<Provider>)
    ensures AddAll(AddAll(ps, xs), xs) == AddAll(ps, xs)
  {
    AddAllProperties(ps, xs);
    AddAllPresent(AddAll(ps, xs), xs);
  }

  class TemplateConfigBundleConfiguration {
    var charset: Charset
    var resourceIncludePath: Option<string>
    var fileIncludePath: Option<string>
    var outputPath: Option<string>
    var customProviders: seq<Provider>

    function State(): Settings
      reads this
    {
      Settings(charset, resourceIncludePath, fileIncludePath, outputPath, customProviders)
    }

    predicate Valid()
      reads this
    {
      Consistent(State())
    }

    /** UTF-8, no include or output path, no custom provider. */
    constructor ()
      ensures Valid()
      ensures GetCharset() == Utf8
      ensures GetResourceIncludePath() == None && GetFileIncludePath() == None && GetOutputPath() == None
      ensures GetCustomProviders() == []
    {
      charset := Utf8;
      resourceIncludePath := None;
      fileIncludePath := None;
      outputPath := None;
      customProviders := [];
    }

    // Each getter returns its field. The Java getters wrap a nullable field in
    // Optional.ofNullable; here the fields are Option values already.

    function GetCharset(): (r: Charset)
      reads this
      ensures r == charset
    {
      charset
    }

    /** Never Some while the file include path is Some. */
    function GetResourceIncludePath(): (r: Option<string>)
      reads this
      ensures r == resourceIncludePath
      ensures Valid() && r.Some? ==> fileIncludePath.None?
    {
      resourceIncludePath
    }

    /** Never Some while the resource include path is Some. */
    function GetFileIncludePath(): (r: Option<string>)
      reads this
      ensures r == fileIncludePath
      ensures Valid() && r.Some? ==> resourceIncludePath.None?
    {
      fileIncludePath
    }

    function GetOutputPath(): (r: Option<string>)
      reads this
      ensures r == outputPath
    {
      outputPath
    }

    /** The providers in insertion order, none twice. */
    function GetCustomProviders(): (r: seq<Provider>)
      reads this
      ensures r == customProviders
      ensures Valid() ==> NoDuplicates(r)
    {
      customProviders
    }

    method SetCharset(c: Charset) returns (self: TemplateConfigBundleConfiguration)
      requires Valid()
      modifies this
      ensures Valid() && self == this
      ensures GetCharset() == c
      ensures State() == WithCharset(old(State()), c)
    {
      charset := c;
      self := this;
    }

    method SetResourceIncludePath(path: string) returns (r: Result<TemplateConfigBundleConfiguration, ConfigError>)
      requires Valid()
      modifies this
      ensures Valid()
      ensures r.Failure? <==> old(GetFileIncludePath()).Some?
      ensures r.Failure? ==> r.error == FileIncludePathPresent && unchanged(this)
      ensures r.Success? ==> r.value == this && GetResourceIncludePath() == Some(path)
      ensures r.Success? ==> Success(State()) == WithResourceIncludePath(old(State()), path)
    {
      if fileIncludePath.Some? {
        return Failure(FileIncludePathPresent);
      }
      resourceIncludePath := Some(path);
      r := Success(this);
    }

    method SetFileIncludePath(path: string) returns (r: Result<TemplateConfigBundleConfiguration, ConfigError>)
      requires Valid()
      modifies this
      ensures Valid()
      ensures r.Failure? <==> old(GetResourceIncludePath()).Some?
      ensures r.Failure? ==> r.error == ResourceIncludePathPresent && unchanged(this)
      ensures r.Success? ==> r.value == this && GetFileIncludePath() == Some(path)
      ensures r.Success? ==> Success(State()) == WithFileIncludePath(old(State()), path)
    {
      if resourceIncludePath.Some? {
        return Failure(ResourceIncludePathPresent);
      }
      fileIncludePath := Some(path);
      r := Success(this);
    }

    method SetOutputPath(path: string) returns (self: TemplateConfigBundleConfiguration)
      requires Valid()
      modifies this
      ensures Valid() && self == this
      ensures GetOutputPath() == Some(path)
      ensures State() == WithOutputPath(old(State()), path)
    {
      outputPath := Some(path);
      self := this;
    }

    method AddCustomProvider(x: Provider) returns (self: TemplateConfigBundleConfiguration)
      requires Valid()
      modifies this
      ensures Valid() && self == this
      ensures x in old(GetCustomProviders()) ==> GetCustomProviders() == old(GetCustomProviders())
      ensures x !in old(GetCustomProviders()) ==> GetCustomProviders() == old(GetCustomProviders()) + [x]
      ensures State() == WithCustomProvider(old(State()), x)
    {
      if x !in customProviders {
        customProviders := customProviders + [x];
      }
      self := this;
    }
  }

  /** A chain on a fresh configuration: the second include path is refused and
      the first one stays; adding the same provider twice keeps one copy. */
  method ConfigurationScenario(p: Provider, q: Provider)
    requires p != q
  {
    var config := new TemplateConfigBundleConfiguration();
    var r := config.SetResourceIncludePath("config.yaml");
    assert r == Success(config);
    var r' := r.value.SetFileIncludePath("/etc/app/config.yaml");
    assert r' == Failure(ResourceIncludePathPresent);
    assert config.GetResourceIncludePath() == Some("config.yaml");
    assert config.GetFileIncludePath() == None;

    var c := config.AddCustomProvider(p);
    c := c.AddCustomProvider(q);
    c := c.AddCustomProvider(p);
    assert config.GetCustomProviders() == [p, q];
    c := c.SetOutputPath("rendered.yaml");
    assert config.GetCharset() == Utf8 && config.GetOutputPath() == Some("rendered.yaml");
  }
}
