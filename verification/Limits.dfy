/** Configuration (config.rs) and the argument checks of the two layers that rely on it (protocol.rs and
    libpq.rs). A string here is a sequence of Unicode scalar values. */
module Limits {
  import opened Wrappers
  import opened Strings

  // ----- settings -----

  datatype Setting =
    | MaxHandles | OutstandingRequests | SqlBytes | Parameters | ParameterBytes | ResultRows | Columns | CellBytes
    | ResultJsonBytes | RequestTimeout | ConnectionTimeout | CancelDrainGrace | ShutdownTotal

  const SETTINGS: set<Setting> :=
    {MaxHandles, OutstandingRequests, SqlBytes, Parameters, ParameterBytes, ResultRows, Columns, CellBytes,
     ResultJsonBytes, RequestTimeout, ConnectionTimeout, CancelDrainGrace, ShutdownTotal}

  /** The settings a table gives. */
  type Overrides = map<Setting, nat>

  /** A value for every setting. */
  type Config = Setting -> nat

  function Constant(s: Setting): nat {
    match s
    case MaxHandles => 16
    case OutstandingRequests => 32
    case SqlBytes => 65_536
    case Parameters => 256
    case ParameterBytes => 1_048_576
    case ResultRows => 1_000
    case Columns => 256
    case CellBytes => 1_048_576
    case ResultJsonBytes => 8_388_608
    case RequestTimeout => 30
    case ConnectionTimeout => 10
    case CancelDrainGrace => 5
    case ShutdownTotal => 10
  }

  function Minimum(s: Setting): nat {
    match s
    case Parameters => 0
    case ParameterBytes => 0
    case ResultJsonBytes => 1_024
    case _ => 1
  }

  function Maximum(s: Setting): nat {
    match s
    case MaxHandles => 128
    case OutstandingRequests => 1_024
    case SqlBytes => 1_048_576
    case Parameters => 65_535
    case ParameterBytes => 16_777_216
    case ResultRows => 100_000
    case Columns => 1_600
    case CellBytes => 16_777_216
    case ResultJsonBytes => 67_108_864
    case _ => 300
  }

  predicate InRange(s: Setting, value: nat) {
    Minimum(s) <= value <= Maximum(s)
  }

  ghost predicate ValidConfig(c: Config) {
    forall s :: InRange(s, c(s))
  }

  /** `merge`: the argument's settings win over the receiver's. */
  function Merge(receiver: Overrides, higher: Overrides): Overrides {
    map s | s in receiver.Keys + higher.Keys :: if s in higher then higher[s] else receiver[s]
  }

  /** `apply`: given settings replace those of the configuration. */
  function Apply(c: Config, o: Overrides): Config {
    s => if s in o then o[s] else c(s)
  }

  function IntoConfig(o: Overrides): Config {
    Apply(Constant, o)
  }

  function FromConfig(c: Config): Overrides {
    map s | s in SETTINGS :: c(s)
  }

  datatype ConfigFile = ConfigFile(defaults: Overrides, legacy: Overrides, profiles: map<string, Overrides>)

  datatype ConfigProblem = UnknownProfile | OutOfRange

  function BaseConfig(f: ConfigFile): Config {
    IntoConfig(Merge(f.defaults, f.legacy))
  }

  function ProfileSettings(f: ConfigFile, profile: string): Config
    requires profile in f.profiles
  {
    IntoConfig(Merge(Merge(f.defaults, f.legacy), f.profiles[profile]))
  }

  /** `profile_config` */
  ghost function ProfileConfig(f: ConfigFile, profile: string): Result<Config, ConfigProblem> {
    if profile !in f.profiles then Err(UnknownProfile)
    else if ValidConfig(ProfileSettings(f, profile)) then Ok(ProfileSettings(f, profile))
    else Err(OutOfRange)
  }

  /** `ConfigFile::validate`, whose second merge has the operands the other way round. */
  ghost predicate FileAccepted(f: ConfigFile) {
    && ValidConfig(BaseConfig(f))
    && forall p | p in f.profiles :: ValidConfig(IntoConfig(Merge(f.profiles[p], FromConfig(BaseConfig(f)))))
  }

  /** The setting that is in force for a profile: its own, or the file's top level, or its defaults, or the
      built-in constant. */
  function Effective(f: ConfigFile, profile: string, s: Setting): nat
    requires profile in f.profiles
  {
    if s in f.profiles[profile] then f.profiles[profile][s]
    else if s in f.legacy then f.legacy[s]
    else if s in f.defaults then f.defaults[s]
    else Constant(s)
  }

  /** A profile's configuration is accepted exactly when every setting in force is in its range, and then it is
      made of the settings in force. */
  lemma ProfileConfigIsEffective(f: ConfigFile, profile: string)
    requires profile in f.profiles
    ensures ProfileConfig(f, profile).Ok? <==> forall s :: InRange(s, Effective(f, profile, s))
    ensures ProfileConfig(f, profile).Ok? ==>
              forall s :: ProfileConfig(f, profile).value(s) == Effective(f, profile, s)
  {
    hide InRange, Minimum, Maximum;
    assert forall s :: ProfileSettings(f, profile)(s) == Effective(f, profile, s);
    if forall s :: InRange(s, Effective(f, profile, s)) {
      forall s ensures InRange(s, ProfileSettings(f, profile)(s)) {
        assert InRange(s, Effective(f, profile, s));
      }
    }
    if ValidConfig(ProfileSettings(f, profile)) {
      forall s ensures InRange(s, Effective(f, profile, s)) {
        assert InRange(s, ProfileSettings(f, profile)(s));
      }
    }
  }

  /** The documented range of every setting. */
  lemma RangesAre(c: Config)
    ensures ValidConfig(c) <==>
            && 1 <= c(MaxHandles) <= 128
            && 1 <= c(OutstandingRequests) <= 1_024
            && 1 <= c(SqlBytes) <= 1_048_576
            && 0 <= c(Parameters) <= 65_535
            && 0 <= c(ParameterBytes) <= 16_777_216
            && 1 <= c(ResultRows) <= 100_000
            && 1 <= c(Columns) <= 1_600
            && 1 <= c(CellBytes) <= 16_777_216
            && 1_024 <= c(ResultJsonBytes) <= 67_108_864
            && 1 <= c(RequestTimeout) <= 300
            && 1 <= c(ConnectionTimeout) <= 300
            && 1 <= c(CancelDrainGrace) <= 300
            && 1 <= c(ShutdownTotal) <= 300
  {
    if ValidConfig(c) {
      assert InRange(MaxHandles, c(MaxHandles));
      assert InRange(OutstandingRequests, c(OutstandingRequests));
      assert InRange(SqlBytes, c(SqlBytes));
      assert InRange(Parameters, c(Parameters));
      assert InRange(ParameterBytes, c(ParameterBytes));
      assert InRange(ResultRows, c(ResultRows));
      assert InRange(Columns, c(Columns));
      assert InRange(CellBytes, c(CellBytes));
      assert InRange(ResultJsonBytes, c(ResultJsonBytes));
      assert InRange(RequestTimeout, c(RequestTimeout));
      assert InRange(ConnectionTimeout, c(ConnectionTimeout));
      assert InRange(CancelDrainGrace, c(CancelDrainGrace));
      assert InRange(ShutdownTotal, c(ShutdownTotal));
    } else {
      var s :| !InRange(s, c(s));
    }
  }

  /** What a file without settings stands for. */
  lemma DefaultsAre()
    ensures var c := BaseConfig(ConfigFile(map[], map[], map[]));
            && c(MaxHandles) == 16 && c(OutstandingRequests) == 32 && c(SqlBytes) == 65_536
            && c(Parameters) == 256 && c(ParameterBytes) == 1_048_576 && c(ResultRows) == 1_000
            && c(Columns) == 256 && c(CellBytes) == 1_048_576 && c(ResultJsonBytes) == 8_388_608
            && c(RequestTimeout) == 30 && c(ConnectionTimeout) == 10 && c(CancelDrainGrace) == 5
            && c(ShutdownTotal) == 10
  {
    var f := ConfigFile(map[], map[], map[]);
    assert forall s :: BaseConfig(f)(s) == Constant(s);
  }

  lemma EverySetting(s: Setting)
    ensures s in SETTINGS
  {
    match s {
      case MaxHandles => case OutstandingRequests => case SqlBytes => case Parameters => case ParameterBytes =>
      case ResultRows => case Columns => case CellBytes => case ResultJsonBytes => case RequestTimeout =>
      case ConnectionTimeout => case CancelDrainGrace => case ShutdownTotal =>
    }
  }

  /** Loading a file looks at its base only: profiles never make it fail. */
  lemma FileAcceptedExactly(f: ConfigFile)
    ensures FileAccepted(f) <==> ValidConfig(BaseConfig(f))
  {
    var base := BaseConfig(f);
    forall p, s | p in f.profiles ensures IntoConfig(Merge(f.profiles[p], FromConfig(base)))(s) == base(s) {
      EverySetting(s);
    }
    if ValidConfig(base) {
      forall p, s | p in f.profiles ensures InRange(s, IntoConfig(Merge(f.profiles[p], FromConfig(base)))(s)) {
        assert InRange(s, base(s));
      }
    }
  }

  /** In an accepted file a profile can be used exactly when its own settings are in range. */
  lemma UsableProfiles(f: ConfigFile, profile: string)
    requires FileAccepted(f) && profile in f.profiles
    ensures ProfileConfig(f, profile).Ok? <==> forall s | s in f.profiles[profile] :: InRange(s, f.profiles[profile][s])
  {
    hide InRange, Minimum, Maximum;
    ProfileConfigIsEffective(f, profile);
    forall s | s !in f.profiles[profile] ensures InRange(s, Effective(f, profile, s)) {
      assert BaseConfig(f)(s) == Effective(f, profile, s);
      assert InRange(s, BaseConfig(f)(s));
    }
    if forall s :: InRange(s, Effective(f, profile, s)) {
      forall s | s in f.profiles[profile] ensures InRange(s, f.profiles[profile][s]) {
        assert InRange(s, Effective(f, profile, s));
      }
    }
  }

  /** A file that loads and has a profile that does not. */
  lemma AcceptedFileWithUnusableProfile(profile: string)
    ensures var f := ConfigFile(map[], map[], map[profile := map[MaxHandles := 0]]);
            FileAccepted(f) && ProfileConfig(f, profile) == Err(OutOfRange)
  {
    var f := ConfigFile(map[], map[], map[profile := map[MaxHandles := 0]]);
    forall s ensures InRange(s, BaseConfig(f)(s)) {
      ConstantsInRange(s);
    }
    FileAcceptedExactly(f);
    UsableProfiles(f, profile);
    assert MaxHandles in f.profiles[profile] && !InRange(MaxHandles, f.profiles[profile][MaxHandles]);
  }

  lemma ConstantsInRange(s: Setting)
    ensures InRange(s, Constant(s))
  {}

  // ----- texts -----

  const C_INT_MAX: nat := 0x7fff_ffff

  /** UTF-8. */
  function Utf8Char(c: char): seq<nat> {
    var n := c as nat;
    if n < 0x80 then [n]
    else if n < 0x800 then [0xC0 + n / 0x40, 0x80 + n % 0x40]
    else if n < 0x10000 then [0xE0 + n / 0x1000, 0x80 + n / 0x40 % 0x40, 0x80 + n % 0x40]
    else [0xF0 + n / 0x40000, 0x80 + n / 0x1000 % 0x40, 0x80 + n / 0x40 % 0x40, 0x80 + n % 0x40]
  }

  predicate Tail(byte: nat) {
    0x80 <= byte <= 0xBF
  }

  /** Section 3 of RFC 3629: the bytes that stand for a code point, each with its marking bits. */
  predicate StandsFor(b: seq<nat>, n: nat) {
    match |b|
    case 1 => b[0] == n <= 0x7F
    case 2 => 0xC0 <= b[0] && Tail(b[1]) && n == Six(b[0] - 0xC0, b[1]) && 0x80 <= n <= 0x7FF
    case 3 =>
      0xE0 <= b[0] && Tail(b[1]) && Tail(b[2]) && n == Six(Six(b[0] - 0xE0, b[1]), b[2]) && 0x800 <= n <= 0xFFFF
    case 4 =>
      && 0xF0 <= b[0] && Tail(b[1]) && Tail(b[2]) && Tail(b[3])
      && n == Six(Six(Six(b[0] - 0xF0, b[1]), b[2]), b[3]) && 0x10000 <= n
    case _ => false
  }

  /** Six more bits. */
  function Six(high: nat, tail: nat): nat
    requires Tail(tail)
  {
    high * 0x40 + (tail - 0x80)
  }

  lemma SixApart(n: nat, high: nat, tail: nat)
    requires Tail(tail)
    ensures n == Six(high, tail) <==> high == n / 0x40 && tail == 0x80 + n % 0x40
  {}

  lemma Shifts(n: nat)
    ensures n / 0x1000 == n / 0x40 / 0x40 && n / 0x40000 == n / 0x40 / 0x40 / 0x40
  {}

  /** The bytes of a character are the ones that stand for it, and no others do. */
  lemma Utf8Exactly(c: char, b: seq<nat>)
    ensures StandsFor(b, c as nat) <==> b == Utf8Char(c)
  {
    var n := c as nat;
    Shifts(n);
    if n < 0x80 {
    } else if n < 0x800 {
      TwoBytes(n, b);
    } else if n < 0x10000 {
      ThreeBytes(n, b);
    } else {
      FourBytes(n, b);
    }
  }

  lemma TwoBytes(n: nat, b: seq<nat>)
    requires 0x80 <= n < 0x800
    ensures StandsFor(b, n) <==> b == [0xC0 + n / 0x40, 0x80 + n % 0x40]
  {
    if |b| == 2 && 0xC0 <= b[0] && Tail(b[1]) {
      SixApart(n, b[0] - 0xC0, b[1]);
    }
  }

  lemma ThreeBytes(n: nat, b: seq<nat>)
    requires 0x800 <= n < 0x10000
    ensures StandsFor(b, n) <==> b == [0xE0 + n / 0x40 / 0x40, 0x80 + n / 0x40 % 0x40, 0x80 + n % 0x40]
  {
    if |b| == 3 && 0xE0 <= b[0] && Tail(b[1]) && Tail(b[2]) {
      SixApart(n, Six(b[0] - 0xE0, b[1]), b[2]);
      SixApart(n / 0x40, b[0] - 0xE0, b[1]);
    }
  }

  lemma FourBytes(n: nat, b: seq<nat>)
    requires 0x10000 <= n
    ensures StandsFor(b, n) <==>
            b == [0xF0 + n / 0x40 / 0x40 / 0x40, 0x80 + n / 0x40 / 0x40 % 0x40, 0x80 + n / 0x40 % 0x40, 0x80 + n % 0x40]
  {
    if |b| == 4 && 0xF0 <= b[0] && Tail(b[1]) && Tail(b[2]) && Tail(b[3]) {
      SixApart(n, Six(Six(b[0] - 0xF0, b[1]), b[2]), b[3]);
      SixApart(n / 0x40, Six(b[0] - 0xF0, b[1]), b[2]);
      SixApart(n / 0x40 / 0x40, b[0] - 0xF0, b[1]);
    }
  }

  function Utf8(s: string): seq<nat> {
    if s == "" then [] else Utf8Char(s[0]) + Utf8(s[1..])
  }

  /** A zero byte comes from a NUL character and from nothing else: one layer looks for the character, the other
      for the byte. */
  lemma {:induction false} NulIsZeroByte(s: string)
    ensures 0 in Utf8(s) <==> '\0' in s
    ensures |Utf8(s)| >= |s|
  {
    if s != "" {
      NulIsZeroByte(s[1..]);
      assert 0 in Utf8Char(s[0]) <==> s[0] == '\0';
    }
  }

  /** The bytes of a text are the bytes of its characters, one after the other. */
  lemma {:induction false} Utf8Concat(s: string, t: string)
    ensures Utf8(s + t) == Utf8(s) + Utf8(t)
    ensures |s| == 1 ==> Utf8(s) == Utf8Char(s[0])
  {
    if s == "" {
      assert "" + t == t;
    } else {
      Utf8Concat(s[1..], t);
      assert (s + t)[0] == s[0] && (s + t)[1..] == s[1..] + t;
    }
  }

  datatype Parameter = Parameter(typeOid: Option<nat>, value: Option<string>)

  datatype QueryRequest = QueryRequest(sql: string, parameters: seq<Parameter>)

  datatype QueryLimits = QueryLimits(sqlBytes: nat, parameters: nat, parameterBytes: nat)

  function LimitsOf(c: Config): QueryLimits {
    QueryLimits(c(SqlBytes), c(Parameters), c(ParameterBytes))
  }

  function ValueBytes(p: Parameter): nat {
    if p.value.Some? then |Utf8(p.value.value)| else 0
  }

  function TotalBytes(ps: seq<Parameter>): nat {
    if ps == [] then 0 else TotalBytes(ps[..|ps| - 1]) + ValueBytes(ps[|ps| - 1])
  }

  /** Parameters count the bytes of their values, and a null counts nothing. */
  lemma TotalBytesOf(ps: seq<Parameter>, p: Parameter)
    ensures TotalBytes([]) == 0
    ensures TotalBytes(ps + [p]) == TotalBytes(ps) + match p.value case None => 0 case Some(text) => |Utf8(text)|
  {
    assert (ps + [p])[..|ps|] == ps;
  }

  predicate HasNul(p: Parameter) {
    p.value.Some? && '\0' in p.value.value
  }

  // ----- the first check: the request -----

  datatype RequestProblem = InvalidQuery | ParameterCountLimit | ParameterByteLimit | EmbeddedNul

  predicate SqlOk(sql: string, limits: QueryLimits) {
    !Blank(sql) && '\0' !in sql && |Utf8(sql)| <= limits.sqlBytes
  }

  predicate ParametersOk(ps: seq<Parameter>, limits: QueryLimits) {
    && |ps| <= limits.parameters
    && (forall i | 0 <= i < |ps| :: !HasNul(ps[i]))
    && TotalBytes(ps) <= limits.parameterBytes
  }

  predicate RequestOk(q: QueryRequest, limits: QueryLimits) {
    SqlOk(q.sql, limits) && ParametersOk(q.parameters, limits)
  }

  lemma {:induction false} TotalGrows(ps: seq<Parameter>, n: nat)
    requires n <= |ps|
    ensures TotalBytes(ps[..n]) <= TotalBytes(ps)
  {
    if n == |ps| {
      assert ps[..n] == ps;
    } else {
      TotalGrows(ps[..|ps| - 1], n);
      assert ps[..|ps| - 1][..n] == ps[..n];
    }
  }

  /** The first parameter at which the running check fails. */
  predicate FailsAt(ps: seq<Parameter>, k: nat, limits: QueryLimits) {
    && k < |ps|
    && (forall i | 0 <= i < k :: !HasNul(ps[i])) && TotalBytes(ps[..k]) <= limits.parameterBytes
    && (HasNul(ps[k]) || TotalBytes(ps[..k + 1]) > limits.parameterBytes)
  }

  /** `QueryRequest::validate_with_limits` */
  method ValidateRequest(q: QueryRequest, limits: QueryLimits) returns (problem: Option<RequestProblem>)
    requires limits.parameterBytes <= USIZE_MAX
    ensures problem.None? <==> RequestOk(q, limits)
    ensures problem.None? <==>
              && !Blank(q.sql) && '\0' !in q.sql && |Utf8(q.sql)| <= limits.sqlBytes
              && |q.parameters| <= limits.parameters && TotalBytes(q.parameters) <= limits.parameterBytes
              && (forall i | 0 <= i < |q.parameters| && q.parameters[i].value.Some? ::
                    '\0' !in q.parameters[i].value.value)
    ensures problem == Some(InvalidQuery) <==> !SqlOk(q.sql, limits)
    ensures problem == Some(ParameterCountLimit) <==> SqlOk(q.sql, limits) && |q.parameters| > limits.parameters
    ensures problem == Some(EmbeddedNul) ==> exists k: nat :: FailsAt(q.parameters, k, limits) && HasNul(q.parameters[k])
    ensures problem == Some(ParameterByteLimit) ==>
              exists k: nat :: FailsAt(q.parameters, k, limits) && !HasNul(q.parameters[k])
  {
    hide Utf8;
    var ps := q.parameters;
    TrimBlank(q.sql);
    if Trim(q.sql) == "" || '\0' in q.sql || |Utf8(q.sql)| > limits.sqlBytes {
      return Some(InvalidQuery);
    }
    if |ps| > limits.parameters {
      return Some(ParameterCountLimit);
    }
    var total := 0;
    for i := 0 to |ps|
      invariant forall j | 0 <= j < i :: !HasNul(ps[j])
      invariant total == TotalBytes(ps[..i]) <= limits.parameterBytes
    {
      assert ps[..i + 1][..i] == ps[..i];
      if HasNul(ps[i]) {
        assert FailsAt(ps, i, limits);
        return Some(EmbeddedNul);
      }
      if total + ValueBytes(ps[i]) > USIZE_MAX || total + ValueBytes(ps[i]) > limits.parameterBytes {
        TotalGrows(ps, i + 1);
        assert FailsAt(ps, i, limits);
        return Some(ParameterByteLimit);
      }
      total := total + ValueBytes(ps[i]);
    }
    assert ps[..|ps|] == ps;
    return None;
  }

  // ----- the second check: the adapter -----

  /** What `send_query` and `validate_parameters` demand before anything is sent. */
  predicate AdapterOk(q: QueryRequest, limits: QueryLimits) {
    && q.sql != "" && |Utf8(q.sql)| <= limits.sqlBytes && 0 !in Utf8(q.sql)
    && |q.parameters| <= limits.parameters && |q.parameters| <= C_INT_MAX
    && (forall i | 0 <= i < |q.parameters| ::
          q.parameters[i].value.Some? ==> 0 !in Utf8(q.parameters[i].value.value))
    && TotalBytes(q.parameters) <= limits.parameterBytes
  }

  /** The adapter's checks, with its checked total. */
  method ValidateForSending(q: QueryRequest, limits: QueryLimits) returns (ok: bool)
    requires limits.parameterBytes <= USIZE_MAX
    ensures ok <==> AdapterOk(q, limits)
    ensures ok <==>
              && q.sql != "" && 0 !in Utf8(q.sql) && |Utf8(q.sql)| <= limits.sqlBytes
              && |q.parameters| <= limits.parameters && |q.parameters| <= 0x7fff_ffff
              && TotalBytes(q.parameters) <= limits.parameterBytes
              && (forall i | 0 <= i < |q.parameters| && q.parameters[i].value.Some? ::
                    0 !in Utf8(q.parameters[i].value.value))
  {
    hide Utf8;
    var ps := q.parameters;
    if q.sql == "" || |Utf8(q.sql)| > limits.sqlBytes || 0 in Utf8(q.sql) || |ps| > limits.parameters {
      return false;
    }
    var total := 0;
    for i := 0 to |ps|
      invariant forall j | 0 <= j < i :: ps[j].value.Some? ==> 0 !in Utf8(ps[j].value.value)
      invariant total == TotalBytes(ps[..i]) <= USIZE_MAX
    {
      assert ps[..i + 1][..i] == ps[..i];
      TotalGrows(ps, i + 1);
      if ps[i].value.Some? {
        if 0 in Utf8(ps[i].value.value) || total + ValueBytes(ps[i]) > USIZE_MAX {
          return false;
        }
        total := total + ValueBytes(ps[i]);
      }
    }
    assert ps[..|ps|] == ps;
    ok := total <= limits.parameterBytes && |ps| <= C_INT_MAX;
  }

  /** The layers agree: under a configuration a profile can have, the adapter accepts exactly what the request
      check accepts, apart from statements of white space only, which the request check alone refuses. */
  lemma LayersAgree(f: ConfigFile, profile: string, q: QueryRequest)
    requires ProfileConfig(f, profile).Ok?
    ensures var limits := LimitsOf(ProfileConfig(f, profile).value);
            && limits.parameterBytes <= USIZE_MAX
            && (RequestOk(q, limits) <==> AdapterOk(q, limits) && !Blank(q.sql))
  {
    var c := ProfileConfig(f, profile).value;
    assert InRange(Parameters, c(Parameters)) && InRange(ParameterBytes, c(ParameterBytes));
    NulIsZeroByte(q.sql);
    forall i | 0 <= i < |q.parameters| && q.parameters[i].value.Some?
      ensures HasNul(q.parameters[i]) <==> 0 in Utf8(q.parameters[i].value.value)
    {
      NulIsZeroByte(q.parameters[i].value.value);
    }
  }

  /** What the other modules ask of the limits they are given. */
  lemma ProfileLimitsSuffice(f: ConfigFile, profile: string)
    requires ProfileConfig(f, profile).Ok?
    ensures var c := ProfileConfig(f, profile).value;
            && c(ResultJsonBytes) >= 62 && c(ResultRows) <= USIZE_MAX
            && c(OutstandingRequests) >= 1 && c(MaxHandles) >= 1
  {
    var c := ProfileConfig(f, profile).value;
    assert InRange(ResultJsonBytes, c(ResultJsonBytes)) && InRange(ResultRows, c(ResultRows));
    assert InRange(OutstandingRequests, c(OutstandingRequests)) && InRange(MaxHandles, c(MaxHandles));
  }
}
