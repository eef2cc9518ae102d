/** classes/got.ts: the registry of HTTP client modules. Each module names
    an optional parent; a client is built by resolving the parent first and
    extending it with the module's own options, which are either a fixed
    object or computed from the call arguments. The HTTP library's `extend`
    is not part of this model: `Extend` states the merge it is assumed to
    perform. */
module Got {
  import opened Wrappers
  import opened Strings

  // ---------------------------------------------------------------------
  // Client options and the assumed merge

  datatype Options = Options(prefixUrl: Option<string>, headers: map<string, string>)

  const NoOptions: Options := Options(None, map[])

  /** The defaults a client instance carries. */
  datatype Client = Client(prefixUrl: Option<string>, headers: map<string, string>)

  /** The library's own client, with no defaults. */
  const BaseClient: Client := Client(None, map[])

  /** Assumed behaviour of `instance.extend(options)`: the child's prefix URL
      replaces the parent's when set; the child's headers override the
      parent's, and the other parent headers are inherited. */
  function Extend(parent: Client, o: Options): (c: Client)
    ensures c.headers.Keys == parent.headers.Keys + o.headers.Keys
    ensures forall k :: k in o.headers ==> c.headers[k] == o.headers[k]
    ensures forall k :: k in parent.headers && k !in o.headers ==> c.headers[k] == parent.headers[k]
    ensures o.prefixUrl.Some? ==> c.prefixUrl == o.prefixUrl
    ensures o.prefixUrl.None? ==> c.prefixUrl == parent.prefixUrl
  {
    Client(if o.prefixUrl.Some? then o.prefixUrl else parent.prefixUrl, parent.headers + o.headers)
  }

  /** Options whose headers are new to the parent keep every parent
      header. */
  lemma ExtendAddsOnly(parent: Client, o: Options)
    requires forall k :: k in o.headers ==> k !in parent.headers
    ensures var c := Extend(parent, o);
            && (forall k :: k in parent.headers ==> k in c.headers && c.headers[k] == parent.headers[k])
            && (forall k :: k in o.headers ==> k in c.headers && c.headers[k] == o.headers[k])
            && (forall k :: k in c.headers <==> k in parent.headers || k in o.headers)
  {
  }

  /** A root client extended by computed options and then by static ones
      that add only new headers carries both sets of headers and no others. */
  lemma ExtendTwice(o: Options, own: Options)
    requires forall k :: k in own.headers ==> k !in o.headers
    ensures var h := Extend(Extend(Extend(BaseClient, NoOptions), o), own).headers;
            && (forall k :: k in o.headers ==> k in h && h[k] == o.headers[k])
            && (forall k :: k in own.headers ==> k in h && h[k] == own.headers[k])
            && (forall k :: k in h <==> k in o.headers || k in own.headers)
  {
    var c := Extend(Extend(BaseClient, NoOptions), o);
    assert c.headers == o.headers by {
      assert Extend(BaseClient, NoOptions).headers == map[];
    }
    ExtendAddsOnly(c, own);
  }

  // ---------------------------------------------------------------------
  // Modules

  datatype OptionsType = ObjectOptions | FunctionOptions

  /** A module's `options`: a fixed object, or a function of the call
      arguments that may throw (`Err` carries the thrown message). */
  datatype ModuleOptions<!A> =
    | Static(options: Options)
    | Derived(compute: A -> Result<Options, string>)

  /** A client module; `parent` is "" for `null`, which the registry treats
      the same way. */
  datatype GotModule<!A> = GotModule(
    name: string,
    optionsType: OptionsType,
    options: ModuleOptions<A>,
    parent: string,
    description: string)

  /** The options a module contributes: the function is called only when
      the module declares `optionsType` "function" and really holds one. A
      function declared as "object" contributes nothing. */
  function CurrentOptions<A>(m: GotModule<A>, args: A): Result<Options, string> {
    match m.options
    case Static(o) => Ok(o)
    case Derived(f) => if m.optionsType == FunctionOptions then f(args) else Ok(NoOptions)
  }

  datatype GotError =
    | ModuleNotFound(name: string)
    | ResolutionTooDeep
    | OptionsFailed(message: string)
    | RequestFailed

  // ---------------------------------------------------------------------
  // Resolution

  /** `#resolveInstance`: look the module up case-insensitively, resolve its
      parent with the same arguments, then extend the parent with the
      module's options. The source recurses with no cycle check; `fuel`
      bounds the depth, and running out stands for the stack overflow a
      cycle would cause. */
  function ResolveInstance<A>(children: map<string, GotModule<A>>, name: string, args: A, fuel: nat)
    : (r: Result<Client, GotError>)
    ensures Lower(name) !in children ==> r == Err(ModuleNotFound(name))
    decreases fuel
  {
    var key := Lower(name);
    if key !in children then Err(ModuleNotFound(name))
    else
      var m := children[key];
      var parent :=
        if m.parent == "" then Ok(BaseClient)
        else if fuel == 0 then Err(ResolutionTooDeep)
        else ResolveInstance(children, m.parent, args, fuel - 1);
      if parent.Err? then parent
      else
        match CurrentOptions(m, args)
        case Err(msg) => Err(OptionsFailed(msg))
        case Ok(o) => Ok(Extend(parent.value, o))
  }

  /** A module with a parent is its parent's client extended with its own
      options; the options are computed only once the parent resolved. */
  lemma ResolveParentFirst<A>(children: map<string, GotModule<A>>, name: string, args: A, fuel: nat)
    requires Lower(name) in children && children[Lower(name)].parent != "" && fuel > 0
    ensures var m := children[Lower(name)];
            var p := ResolveInstance(children, m.parent, args, fuel - 1);
            var r := ResolveInstance(children, name, args, fuel);
            && (p.Err? ==> r == p)
            && (p.Ok? && CurrentOptions(m, args).Ok? ==> r == Ok(Extend(p.value, CurrentOptions(m, args).value)))
            && (p.Ok? && CurrentOptions(m, args).Err? ==> r == Err(OptionsFailed(CurrentOptions(m, args).error)))
  {
  }

  /** A root module extends the library's own client. */
  lemma ResolveRoot<A>(children: map<string, GotModule<A>>, name: string, args: A, fuel: nat)
    requires Lower(name) in children && children[Lower(name)].parent == ""
    ensures var m := children[Lower(name)];
            var r := ResolveInstance(children, name, args, fuel);
            && (CurrentOptions(m, args).Ok? ==> r == Ok(Extend(BaseClient, CurrentOptions(m, args).value)))
            && (CurrentOptions(m, args).Err? ==> r == Err(OptionsFailed(CurrentOptions(m, args).error)))
  {
  }

  /** Names are compared in lowercase: two spellings of a name resolve alike. */
  lemma ResolveCaseInsensitive<A>(children: map<string, GotModule<A>>, n1: string, n2: string, args: A, fuel: nat)
    requires Lower(n1) == Lower(n2) && Lower(n1) in children
    ensures ResolveInstance(children, n1, args, fuel) == ResolveInstance(children, n2, args, fuel)
  {
  }

  /** The parent graph is acyclic, witnessed by a rank that drops from each
      module to its parent; every parent is registered. */
  ghost predicate RankedBy<A>(children: map<string, GotModule<A>>, rank: map<string, nat>) {
    && rank.Keys == children.Keys
    && forall k :: k in children && children[k].parent != "" ==>
         Lower(children[k].parent) in rank && rank[Lower(children[k].parent)] < rank[k]
  }

  /** In a ranked registry, with fuel at least the rank of the module, the
      only way resolution fails is an options function that throws. */
  lemma {:induction false} ResolveRanked<A>(children: map<string, GotModule<A>>, rank: map<string, nat>,
                                           name: string, args: A, fuel: nat)
    requires RankedBy(children, rank) && Lower(name) in children && rank[Lower(name)] <= fuel
    ensures var r := ResolveInstance(children, name, args, fuel);
            r.Err? ==> r.error.OptionsFailed?
    decreases fuel
  {
    var m := children[Lower(name)];
    if m.parent != "" {
      ResolveRanked(children, rank, m.parent, args, fuel - 1);
    }
  }

  /** The header `name` is set, to `value`. */
  predicate HasHeader(h: map<string, string>, name: string, value: string) {
    name in h && h[name] == value
  }

  // ---------------------------------------------------------------------
  // URL sanitising

  predicate IsSlash(c: char) {
    c == '/' || c == '\\'
  }

  /** One `replaceAll(/<pat>[/\\]?/g, "")` pass: scanning from the left,
      every occurrence of `pat`, together with one slash or backslash right
      after it, is removed. */
  function StripPattern(s: string, pat: string): (r: string)
    requires |pat| > 0
    ensures |r| <= |s|
    ensures r == s || |r| < |s|
    ensures Contains(s, pat) ==> |r| < |s|
    ensures !Contains(s, pat) ==> r == s
    decreases |s|
  {
    if s == [] then []
    else if StartsWith(s, pat) then
      var rest := s[|pat|..];
      if rest != [] && IsSlash(rest[0]) then StripPattern(rest[1..], pat) else StripPattern(rest, pat)
    else
      assert s == [s[0]] + s[1..];
      [s[0]] + StripPattern(s[1..], pat)
  }

  const Dots: string := ".."
  const EncodedDots: string := "%2E%2E"

  /** `Got.sanitize` as written: the `..` pass, then the upper-case `%2E%2E`
      pass. The second pass can join dots the first one left apart, so the
      result may still hold `..` (see `SanitizeLeavesTraversal`). */
  function Sanitize(url: string): (r: string)
    ensures |r| <= |url|
    ensures !Contains(url, Dots) && !Contains(url, EncodedDots) ==> r == url
  {
    StripPattern(StripPattern(url, Dots), EncodedDots)
  }

  /** A pattern occurs in `c` followed by `t` when it starts there or occurs in `t`. */
  lemma ConsContains(c: char, t: string, p: string)
    ensures Contains([c] + t, p) <==> StartsWith([c] + t, p) || Contains(t, p)
  {
    assert ([c] + t)[1..] == t;
  }

  /** What the `..` pass keeps first, when the text does not start with a dot. */
  lemma StripDotsHead(t: string)
    requires t != [] && t[0] != '.'
    ensures StripPattern(t, Dots) != [] && StripPattern(t, Dots)[0] == t[0]
  {
  }

  /** After the first pass no `..` is left. */
  lemma {:induction false} StripDotsComplete(s: string)
    ensures !Contains(StripPattern(s, Dots), Dots)
    decreases |s|
  {
    if s == [] {
    } else if StartsWith(s, Dots) {
      var rest := s[2..];
      if rest != [] && IsSlash(rest[0]) {
        StripDotsComplete(rest[1..]);
      } else {
        StripDotsComplete(rest);
      }
    } else {
      var t := s[1..];
      StripDotsComplete(t);
      ConsContains(s[0], StripPattern(t, Dots), Dots);
      if s[0] == '.' && t != [] {
        assert t[0] != '.';
        StripDotsHead(t);
      }
    }
  }

  /** The as-written sanitiser turns `.%2E%2E./` into `../`: a traversal
      sequence survives. */
  lemma SanitizeLeavesTraversal()
    ensures Sanitize(".%2E%2E./") == "../"
    ensures Contains(Sanitize(".%2E%2E./"), Dots)
  {
    TraversalFirstPass();
    TraversalSecondPass();
    assert StartsWith("../", Dots);
  }

  /** The `..` pass finds nothing in `.%2E%2E./`. */
  lemma TraversalFirstPass()
    ensures StripPattern(".%2E%2E./", Dots) == ".%2E%2E./"
  {
    assert StripPattern("/", Dots) == "/";
    assert StripPattern("./", Dots) == "./";
    assert StripPattern("E./", Dots) == "E./";
    assert StripPattern("2E./", Dots) == "2E./";
    assert StripPattern("%2E./", Dots) == "%2E./";
    assert StripPattern("E%2E./", Dots) == "E%2E./";
    assert StripPattern("2E%2E./", Dots) == "2E%2E./";
    assert StripPattern("%2E%2E./", Dots) == "%2E%2E./";
  }

  /** The `%2E%2E` pass then joins the two outer dots. */
  lemma TraversalSecondPass()
    ensures StripPattern(".%2E%2E./", EncodedDots) == "../"
  {
    assert StripPattern(".%2E%2E./", EncodedDots) == "." + StripPattern("%2E%2E./", EncodedDots);
    assert StripPattern("%2E%2E./", EncodedDots) == StripPattern("./", EncodedDots);
    assert StripPattern("./", EncodedDots) == "./";
  }

  /** The sanitiser the code evidently intends: both passes repeated until
      nothing changes. Each round that changes the text shortens it. */
  function SanitizeFixpoint(url: string): (r: string)
    ensures Sanitize(r) == r
    ensures |r| <= |url|
    decreases |url|
  {
    var t := Sanitize(url);
    if t == url then url
    else
      assert |StripPattern(url, Dots)| < |url| || |StripPattern(StripPattern(url, Dots), EncodedDots)| < |StripPattern(url, Dots)|;
      SanitizeFixpoint(t)
  }

  /** The corrected sanitiser leaves neither `..` nor `%2E%2E`, changes
      nothing without them, and agrees with the as-written one whenever a
      single round was enough. */
  lemma SanitizeFixpointClean(url: string)
    ensures !Contains(SanitizeFixpoint(url), Dots)
    ensures !Contains(SanitizeFixpoint(url), EncodedDots)
    ensures !Contains(url, Dots) && !Contains(url, EncodedDots) ==> SanitizeFixpoint(url) == url
    ensures Sanitize(Sanitize(url)) == Sanitize(url) ==> SanitizeFixpoint(url) == Sanitize(url)
  {
    var r := SanitizeFixpoint(url);
    var p1 := StripPattern(r, Dots);
    assert |p1| == |r|;
    assert p1 == r;
    StripDotsComplete(r);
  }

  /** A url with no `.` and no `%` is sent as written. */
  lemma SanitizeKeepsPlainUrl(url: string)
    requires '.' !in url && '%' !in url
    ensures Sanitize(url) == url && SanitizeFixpoint(url) == url
  {
    AbsentChar(url, Dots, '.');
    AbsentChar(url, EncodedDots, '%');
    SanitizeFixpointClean(url);
  }

  // ---------------------------------------------------------------------
  // Requests

  /** A request as handed to the network: the resolved client and the path. */
  datatype PreparedRequest = PreparedRequest(client: Client, url: string)

  /** `request` up to the send: sanitise the url, then resolve the module
      with the call arguments. Resolution gets one level per registered
      module, enough for any acyclic chain. */
  function Prepare<A>(children: map<string, GotModule<A>>, name: string, url: string, args: A)
    : (r: Result<PreparedRequest, GotError>)
    ensures r.Ok? <==> ResolveInstance(children, name, args, |children|).Ok?
    ensures r.Ok? ==> r.value.client == ResolveInstance(children, name, args, |children|).value
    ensures r.Ok? ==> r.value.url == Sanitize(url) && |r.value.url| <= |url|
    ensures r.Ok? && !Contains(url, Dots) && !Contains(url, EncodedDots) ==> r.value.url == url
  {
    var instance := ResolveInstance(children, name, args, |children|);
    if instance.Err? then Err(instance.error)
    else Ok(PreparedRequest(instance.value, Sanitize(url)))
  }

  /** The traversal the written sanitiser lets through reaches the network:
      a request for `.%2E%2E./` through any module that resolves is sent to
      `../`. */
  lemma PrepareSendsTraversal<A>(children: map<string, GotModule<A>>, name: string, args: A)
    requires ResolveInstance(children, name, args, |children|).Ok?
    ensures Prepare(children, name, ".%2E%2E./", args).Ok?
    ensures Prepare(children, name, ".%2E%2E./", args).value.url == "../"
  {
    SanitizeLeavesTraversal();
  }

  /** `request`: send the prepared request and return the response body;
      `send` returns `None` when the call throws. */
  function Request<A, B>(children: map<string, GotModule<A>>, name: string, url: string, args: A,
                         send: PreparedRequest -> Option<B>): (r: Result<B, GotError>)
    ensures r.Ok? <==> Prepare(children, name, url, args).Ok? && send(Prepare(children, name, url, args).value).Some?
    ensures r.Ok? ==> r.value == send(Prepare(children, name, url, args).value).value
    ensures Prepare(children, name, url, args).Err? ==> r == Err(Prepare(children, name, url, args).error)
  {
    var p := Prepare(children, name, url, args);
    if p.Err? then Err(p.error)
    else match send(p.value)
      case None => Err(RequestFailed)
      case Some(body) => Ok(body)
  }

  // ---------------------------------------------------------------------
  // The registry

  /** One exported value of the modules package, as `#isGotModule` sees it. */
  datatype Export<!A> =
    | NonObject
    | NullValue
    | ObjectValue(hasName: bool, hasOptions: bool, definition: GotModule<A>)

  /** `#isGotModule`: a non-null object with both `name` and `options`. */
  predicate IsGotModule<A>(e: Export<A>) {
    e.ObjectValue? && e.hasName && e.hasOptions
  }

  /** The registry after adding the accepted exports in order. */
  function Registered<A>(m: map<string, GotModule<A>>, exports: seq<Export<A>>): map<string, GotModule<A>>
    decreases |exports|
  {
    if exports == [] then m
    else
      var e := exports[0];
      Registered(if IsGotModule(e) then m[Lower(e.definition.name) := e.definition] else m, exports[1..])
  }

  /** A key no later export claims keeps its value. */
  lemma {:induction false} RegisteredKeeps<A>(m: map<string, GotModule<A>>, exports: seq<Export<A>>, key: string)
    requires forall j :: 0 <= j < |exports| && IsGotModule(exports[j]) ==> Lower(exports[j].definition.name) != key
    ensures key in Registered(m, exports) <==> key in m
    ensures key in m ==> Registered(m, exports)[key] == m[key]
    decreases |exports|
  {
    if exports != [] {
      var e := exports[0];
      var m' := if IsGotModule(e) then m[Lower(e.definition.name) := e.definition] else m;
      assert key in m' <==> key in m;
      assert key in m ==> m'[key] == m[key];
      forall j | 0 <= j < |exports[1..]| && IsGotModule(exports[1..][j])
        ensures Lower(exports[1..][j].definition.name) != key
      {
        assert exports[1..][j] == exports[j + 1];
      }
      RegisteredKeeps(m', exports[1..], key);
    }
  }

  /** Registration overwrites silently: a name registered several times
      keeps the last accepted module with that name. */
  lemma {:induction false} RegisteredLastWins<A>(m: map<string, GotModule<A>>, exports: seq<Export<A>>, i: nat)
    requires i < |exports| && IsGotModule(exports[i])
    requires forall j :: i < j < |exports| && IsGotModule(exports[j]) ==>
               Lower(exports[j].definition.name) != Lower(exports[i].definition.name)
    ensures Lower(exports[i].definition.name) in Registered(m, exports)
    ensures Registered(m, exports)[Lower(exports[i].definition.name)] == exports[i].definition
    decreases |exports|
  {
    var e := exports[0];
    var m' := if IsGotModule(e) then m[Lower(e.definition.name) := e.definition] else m;
    if i == 0 {
      forall j | 0 <= j < |exports[1..]| && IsGotModule(exports[1..][j])
        ensures Lower(exports[1..][j].definition.name) != Lower(exports[i].definition.name)
      {
        assert exports[1..][j] == exports[j + 1];
      }
      RegisteredKeeps(m', exports[1..], Lower(e.definition.name));
    } else {
      assert exports[1..][i - 1] == exports[i];
      forall j | i - 1 < j < |exports[1..]| && IsGotModule(exports[1..][j])
        ensures Lower(exports[1..][j].definition.name) != Lower(exports[i].definition.name)
      {
        assert exports[1..][j] == exports[j + 1];
      }
      RegisteredLastWins(m', exports[1..], i - 1);
    }
  }

  /** A module whose parent is set but not registered. */
  predicate Dangling<A>(children: map<string, GotModule<A>>, key: string) {
    key in children && children[key].parent != "" && Lower(children[key].parent) !in children
  }

  function InvalidParentMessage<A>(m: GotModule<A>): string {
    "Invalid Got configuration: Module \"" + m.name + "\" references non-existent parent \"" + m.parent + "\""
  }

  predicate Distinct(s: seq<string>) {
    forall i, j :: 0 <= i < j < |s| ==> s[i] != s[j]
  }

  class GotRegistry<A> {
    /** `#children`, keyed by lowercased name. */
    var children: map<string, GotModule<A>>
    /** The keys in first-insertion order, the order a Map iterates in. */
    var order: seq<string>

    ghost predicate Valid()
      reads this
    {
      && Distinct(order)
      && forall k :: k in children <==> k in order
    }

    constructor ()
      ensures Valid() && children == map[] && order == []
    {
      children := map[];
      order := [];
    }

    /** `#add`: keyed by the lowercased name; an existing entry is replaced
        in place. */
    method Add(m: GotModule<A>)
      requires Valid()
      modifies this
      ensures Valid()
      ensures children == old(children)[Lower(m.name) := m]
      ensures order == if Lower(m.name) in old(children) then old(order) else old(order) + [Lower(m.name)]
    {
      var key := Lower(m.name);
      if key !in children {
        order := order + [key];
      }
      children := children[key := m];
    }

    /** `#validateHierarchy`: fails on the first module, in iteration order,
        whose parent is set but not registered. */
    method ValidateHierarchy() returns (error: Option<string>)
      requires Valid()
      ensures error.None? <==> forall k :: k in children ==> !Dangling(children, k)
      ensures error.Some? ==>
                (exists i :: && 0 <= i < |order| && Dangling(children, order[i])
                             && (forall j :: 0 <= j < i ==> !Dangling(children, order[j]))
                             && error.value == InvalidParentMessage(children[order[i]]))
    {
      var i := 0;
      while i < |order|
        invariant 0 <= i <= |order|
        invariant forall j :: 0 <= j < i ==> !Dangling(children, order[j])
      {
        var m := children[order[i]];
        if m.parent != "" && Lower(m.parent) !in children {
          return Some(InvalidParentMessage(m));
        }
        i := i + 1;
      }
      return None;
    }

    /** `importData`: add every export that looks like a module, in order,
        then validate the parent links. */
    method ImportData(exports: seq<Export<A>>) returns (error: Option<string>)
      requires Valid()
      modifies this
      ensures Valid()
      ensures children == Registered(old(children), exports)
      ensures error.None? <==> forall k :: k in children ==> !Dangling(children, k)
    {
      var i := 0;
      while i < |exports|
        invariant 0 <= i <= |exports|
        invariant Valid()
        invariant Registered(children, exports[i..]) == Registered(old(children), exports)
      {
        assert exports[i..][1..] == exports[i + 1..];
        if IsGotModule(exports[i]) {
          Add(exports[i].definition);
        }
        i := i + 1;
      }
      error := ValidateHierarchy();
    }
  }
}
