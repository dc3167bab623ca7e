/** Reading the cluster's configuration back from the arguments of its `portworx` container. */
module Config {
  import opened Options
  import opened Colons
  import opened Containers

  /** The options of the key-value store client; an option not given is absent. */
  datatype KvdbOpts = KvdbOpts(
    user: Option<string>, password: Option<string>, ca: Option<string>,
    cert: Option<string>, key: Option<string>, acl: Option<string>)

  datatype Settings = Settings(internal: bool, clusterName: string, endpoints: seq<string>, opts: KvdbOpts)

  const NOTHING: Settings := Settings(false, "", [], KvdbOpts(None, None, None, None, None, None))

  /** How a scan ends: with settings, with an error, or by indexing past the last argument. */
  datatype Scan = Scanned(settings: Settings) | Rejected | OutOfRange

  /** Reading one comma-separated record; it may fail. */
  type Csv = string -> Option<seq<string>>

  /** What an argument is to the scan. */
  datatype Flag = Internal | Name | Endpoints | Login | CaFile | CertFile | KeyFile | AclToken | Other

  function FlagOf(arg: string): Flag {
    match arg
    case "-b" => Internal
    case "-c" => Name
    case "-k" => Endpoints
    case "-pwd" => Login
    case "-userpwd" => Login
    case "-ca" => CaFile
    case "-cert" => CertFile
    case "-key" => KeyFile
    case "-acl" => AclToken
    case _ => Other
  }

  /** An argument and what it is. */
  datatype Arg = Arg(text: string, flag: Flag)

  type Line = seq<Arg>

  function Classify(args: seq<string>): (line: Line)
    ensures |line| == |args|
    ensures forall i :: 0 <= i < |args| ==> line[i] == Arg(args[i], FlagOf(args[i]))
  {
    seq(|args|, i requires 0 <= i < |args| => Arg(args[i], FlagOf(args[i])))
  }

  predicate TakesValue(flag: Flag) { !flag.Internal? && !flag.Other? }

  /** The user and the password: the first two pieces between colons. */
  function Credentials(value: string): Option<(string, string)> {
    var parts := Split(value);
    if |parts| < 2 then None else Some((parts[0], parts[1]))
  }

  /** `user:password` is read back exactly when neither part holds a colon. */
  lemma CredentialsAreRecovered(user: string, password: string)
    ensures Credentials(user + ":" + password) == Some((user, password)) <==> ':' !in user && ':' !in password
  {
    FirstTwoPieces(user, password);
  }

  // ---------------------------------------------------------------- last occurrence wins

  /** The latest value of every flag among the first `n` arguments; `-b` has no value. */
  function Latest(line: Line, n: nat): map<Flag, string>
    requires n <= |line|
  {
    if n == 0 then map[]
    else
      var before := Latest(line, n - 1);
      var flag := line[n - 1].flag;
      if flag == Internal then before[Internal := ""]
      else if TakesValue(flag) && n < |line| then before[flag := line[n].text]
      else before
  }

  /** The scan cannot get past argument `i`. */
  predicate Stops(line: Line, i: nat, csv: Csv)
    requires i < |line|
  {
    TakesValue(line[i].flag) && (i + 1 == |line| || !Acceptable(line[i].flag, line[i + 1].text, csv))
  }

  predicate Acceptable(flag: Flag, value: string, csv: Csv) {
    && (flag == Endpoints ==> csv(value).Some?)
    && (flag == Login ==> Credentials(value).Some?)
  }

  function Raw(values: map<Flag, string>, flag: Flag): Option<string> {
    if flag in values then Some(values[flag]) else None
  }

  function EndpointsIn(values: map<Flag, string>, csv: Csv): seq<string> {
    if Endpoints in values && csv(values[Endpoints]).Some? then csv(values[Endpoints]).value else []
  }

  function LoginIn(values: map<Flag, string>): Option<(string, string)> {
    if Login in values then Credentials(values[Login]) else None
  }

  /** What the flags say, each by its own value alone. */
  function Interpret(values: map<Flag, string>, csv: Csv): Settings {
    var login := LoginIn(values);
    Settings(
      Internal in values,
      if Name in values then values[Name] else "",
      EndpointsIn(values, csv),
      KvdbOpts(
        if login.Some? then Some(login.value.0) else None,
        if login.Some? then Some(login.value.1) else None,
        Raw(values, CaFile), Raw(values, CertFile), Raw(values, KeyFile), Raw(values, AclToken)))
  }

  /** What the last occurrence of every flag among the first `n` arguments says. */
  function Meant(line: Line, n: nat, csv: Csv): Settings
    requires n <= |line|
  {
    Interpret(Latest(line, n), csv)
  }

  /** A flag has the value that follows its last occurrence, and none when it does not occur. */
  lemma {:induction false} LastOccurrenceWins(line: Line, n: nat, i: nat)
    requires i < n <= |line| && line[i].flag != Other && forall k :: i < k < n ==> line[k].flag != line[i].flag
    requires TakesValue(line[i].flag) ==> i + 1 < |line|
    ensures line[i].flag in Latest(line, n)
    ensures TakesValue(line[i].flag) ==> Latest(line, n)[line[i].flag] == line[i + 1].text
  {
    if i < n - 1 {
      LastOccurrenceWins(line, n - 1, i);
    }
  }

  lemma {:induction false} AbsentHasNoValue(line: Line, n: nat, flag: Flag)
    requires n <= |line| && forall k :: 0 <= k < n ==> line[k].flag != flag
    ensures flag !in Latest(line, n)
  {
    if n > 0 {
      AbsentHasNoValue(line, n - 1, flag);
    }
  }

  /** The flag loop: it looks at every position, values included, and the last occurrence of a flag
      wins. It ends early at the first argument it cannot get past. */
  method ScanArgs(args: seq<string>, csv: Csv) returns (r: Scan)
    ensures r == ScanOf(Classify(args), csv)
    ensures r.Scanned? ==> ByText(r.settings, args, csv)
  {
    ghost var line := Classify(args);
    var st := NOTHING;
    for i := 0 to |args|
      invariant st == Meant(line, i, csv)
      invariant forall k :: 0 <= k < i ==> !Stops(line, k, csv)
    {
      var flag := FlagOf(args[i]);
      if flag == Internal {
        st := st.(internal := true);
      } else if flag != Other {
        if i + 1 == |args| {
          assert Stops(line, i, csv);
          return OutOfRange;
        }
        var applied := Applied(st, flag, args[i + 1], csv);
        Refused(st, flag, args[i + 1], csv);
        if applied.None? {
          assert Stops(line, i, csv);
          return Rejected;
        }
        st := applied.value;
      }
      MeantStep(line, i, csv);
    }
    ScanByText(args, csv);
    return Scanned(st);
  }

  /** What a flag and its value do. */
  function Applied(st: Settings, flag: Flag, value: string, csv: Csv): (r: Option<Settings>)
    requires TakesValue(flag)
  {
    match flag
    case Name => Some(st.(clusterName := value))
    case Endpoints =>
      var list := csv(value);
      if list.None? then None else Some(st.(endpoints := list.value))
    case Login =>
      var pair := Credentials(value);
      if pair.None? then None
      else Some(st.(opts := st.opts.(user := Some(pair.value.0), password := Some(pair.value.1))))
    case CaFile => Some(st.(opts := st.opts.(ca := Some(value))))
    case CertFile => Some(st.(opts := st.opts.(cert := Some(value))))
    case KeyFile => Some(st.(opts := st.opts.(key := Some(value))))
    case AclToken => Some(st.(opts := st.opts.(acl := Some(value))))
  }

  // ---------------------------------------------------------------- a pair-consuming parser

  /** The parser a reader of the flags expects: a flag that takes a value consumes it. */
  function ParsePairs(line: Line, i: nat, st: Settings, csv: Csv): Scan
    requires i <= |line|
    decreases |line| - i
  {
    if i == |line| then Scanned(st)
    else
      var flag := line[i].flag;
      if flag == Internal then ParsePairs(line, i + 1, st.(internal := true), csv)
      else if flag == Other then ParsePairs(line, i + 1, st, csv)
      else if i + 1 == |line| then OutOfRange
      else
        var applied := Applied(st, flag, line[i + 1].text, csv);
        if applied.None? then Rejected else ParsePairs(line, i + 2, applied.value, csv)
  }

  /** No value is itself a flag. */
  predicate ValuesAreNotFlags(line: Line) {
    forall i :: 0 <= i < |line| - 1 && TakesValue(line[i].flag) ==> line[i + 1].flag == Other
  }

  /** The scan in terms of the declarations above, as a function. */
  ghost function ScanOf(line: Line, csv: Csv): Scan {
    if forall i :: 0 <= i < |line| ==> !Stops(line, i, csv) then Scanned(Meant(line, |line|, csv))
    else if TakesValue(line[|line| - 1].flag) && forall i :: 0 <= i < |line| - 1 ==> !Stops(line, i, csv) then OutOfRange
    else Rejected
  }

  lemma InterpretStep(values: map<Flag, string>, flag: Flag, value: string, csv: Csv)
    requires TakesValue(flag) && Acceptable(flag, value, csv)
    ensures Applied(Interpret(values, csv), flag, value, csv) == Some(Interpret(values[flag := value], csv))
  {
  }

  /** One more argument: what was meant so far, with what the argument does. */
  lemma MeantStep(line: Line, i: nat, csv: Csv)
    requires i < |line| && !Stops(line, i, csv)
    ensures line[i].flag == Other ==> Meant(line, i + 1, csv) == Meant(line, i, csv)
    ensures line[i].flag == Internal ==> Meant(line, i + 1, csv) == Meant(line, i, csv).(internal := true)
    ensures TakesValue(line[i].flag) ==>
      Applied(Meant(line, i, csv), line[i].flag, line[i + 1].text, csv) == Some(Meant(line, i + 1, csv))
  {
    if TakesValue(line[i].flag) {
      InterpretStep(Latest(line, i), line[i].flag, line[i + 1].text, csv);
    }
  }

  lemma Refused(st: Settings, flag: Flag, value: string, csv: Csv)
    requires TakesValue(flag)
    ensures Applied(st, flag, value, csv).None? <==> !Acceptable(flag, value, csv)
  {
  }

  /** Scanning every position refines the pair-consuming parser on every list in which no value is
      itself a flag, errors and missing values included. */
  lemma {:induction false} ScanRefinesPairs(line: Line, i: nat, csv: Csv)
    requires i <= |line| && ValuesAreNotFlags(line)
    requires forall k :: 0 <= k < i ==> !Stops(line, k, csv)
    ensures ParsePairs(line, i, Meant(line, i, csv), csv) == ScanOf(line, csv)
    decreases |line| - i
  {
    if i < |line| {
      if Stops(line, i, csv) {
        if i + 1 < |line| {
          Refused(Meant(line, i, csv), line[i].flag, line[i + 1].text, csv);
        }
      } else {
        MeantStep(line, i, csv);
        if TakesValue(line[i].flag) {
          MeantStep(line, i + 1, csv);
          ScanRefinesPairs(line, i + 2, csv);
        } else {
          ScanRefinesPairs(line, i + 1, csv);
        }
      }
    }
  }

  /** From the first argument: the scan and the parser give the same settings. */
  lemma ScanIsPairs(line: Line, csv: Csv)
    requires ValuesAreNotFlags(line)
    ensures ParsePairs(line, 0, NOTHING, csv) == ScanOf(line, csv)
  {
    ScanRefinesPairs(line, 0, csv);
  }

  // ---------------------------------------------------------------- exactly when they agree

  /** The pair-consuming parser takes argument `i` for a value. */
  predicate Consumed(line: Line, i: nat)
    requires i < |line|
  {
    i > 0 && TakesValue(line[i - 1].flag) && !Consumed(line, i - 1)
  }

  /** The arguments with every consumed value made harmless. */
  function Masked(line: Line): (m: Line)
    ensures |m| == |line|
    ensures forall i :: 0 <= i < |line| ==> m[i] == if Consumed(line, i) then line[i].(flag := Other) else line[i]
  {
    seq(|line|, i requires 0 <= i < |line| => if Consumed(line, i) then line[i].(flag := Other) else line[i])
  }

  lemma {:induction false} MaskingIsInvisible(line: Line, i: nat, st: Settings, csv: Csv)
    requires i <= |line| && (i < |line| ==> !Consumed(line, i))
    ensures ParsePairs(line, i, st, csv) == ParsePairs(Masked(line), i, st, csv)
    decreases |line| - i
  {
    if i < |line| {
      var flag := line[i].flag;
      assert Masked(line)[i] == line[i];
      if flag == Internal {
        MaskingIsInvisible(line, i + 1, st.(internal := true), csv);
      } else if flag == Other {
        MaskingIsInvisible(line, i + 1, st, csv);
      } else if i + 1 < |line| {
        assert Consumed(line, i + 1) && Masked(line)[i + 1].text == line[i + 1].text;
        var applied := Applied(st, flag, line[i + 1].text, csv);
        if applied.Some? {
          MaskingIsInvisible(line, i + 2, applied.value, csv);
        }
      }
    }
  }

  /** On every list of arguments the pair-consuming parser is the scan of the masked list. */
  lemma {:induction false} PairsAreAMaskedScan(line: Line, csv: Csv)
    ensures ParsePairs(line, 0, NOTHING, csv) == ScanOf(Masked(line), csv)
  {
    var m := Masked(line);
    forall i | 0 <= i < |m| - 1 && TakesValue(m[i].flag) ensures m[i + 1].flag == Other {
      assert !Consumed(line, i) && Consumed(line, i + 1);
    }
    MaskingIsInvisible(line, 0, NOTHING, csv);
    ScanIsPairs(m, csv);
  }

  lemma StopsOfMasked(line: Line, i: nat, csv: Csv)
    requires i < |line|
    ensures Stops(Masked(line), i, csv) <==> Stops(line, i, csv) && !Consumed(line, i)
  {
    if i + 1 < |line| {
      assert Masked(line)[i + 1].text == line[i + 1].text;
    }
  }

  /** The scan gets to the end exactly when the parser does and no consumed value stops it. */
  lemma ScanFailsMoreOften(line: Line, csv: Csv)
    ensures ScanOf(line, csv).Scanned? <==>
      ParsePairs(line, 0, NOTHING, csv).Scanned? && forall i :: 0 <= i < |line| && Consumed(line, i) ==> !Stops(line, i, csv)
  {
    PairsAreAMaskedScan(line, csv);
    forall i | 0 <= i < |line| ensures Stops(Masked(line), i, csv) <==> Stops(line, i, csv) && !Consumed(line, i) {
      StopsOfMasked(line, i, csv);
    }
    if ScanOf(Masked(line), csv).Scanned? && forall i :: 0 <= i < |line| && Consumed(line, i) ==> !Stops(line, i, csv) {
      forall i | 0 <= i < |line| ensures !Stops(line, i, csv) {
        assert !Stops(Masked(line), i, csv);
      }
    }
    if ScanOf(line, csv).Scanned? {
      forall i | 0 <= i < |line| ensures !Stops(Masked(line), i, csv) {
        assert !Stops(line, i, csv);
      }
    }
  }

  /** The last of the first `n` arguments that is this flag; with `proper`, not counting consumed ones. */
  ghost function LastIndex(line: Line, n: nat, flag: Flag, proper: bool): (i: Option<nat>)
    requires n <= |line|
    ensures i.Some? ==> i.value < n && Occurs(line, i.value, flag, proper)
    ensures i.Some? ==> forall k :: i.value < k < n ==> !Occurs(line, k, flag, proper)
    ensures i.None? ==> forall k :: 0 <= k < n ==> !Occurs(line, k, flag, proper)
  {
    if n == 0 then None
    else if Occurs(line, n - 1, flag, proper) then Some(n - 1)
    else LastIndex(line, n - 1, flag, proper)
  }

  ghost predicate Occurs(line: Line, i: nat, flag: Flag, proper: bool)
    requires i < |line|
  {
    line[i].flag == flag && (proper ==> !Consumed(line, i))
  }

  /** What an occurrence says. */
  ghost function Said(line: Line, i: Option<nat>, flag: Flag): Option<string> {
    if i.None? then None
    else if TakesValue(flag) then if i.value + 1 < |line| then Some(line[i.value + 1].text) else None
    else Some("")
  }

  /** No flag lacks its value. */
  ghost predicate Complete(line: Line) { line == [] || !TakesValue(line[|line| - 1].flag) }

  /** The scan has what the last occurrence of a flag says. */
  lemma {:induction false} LatestIsSaid(line: Line, n: nat, flag: Flag)
    requires n <= |line| && flag != Other && Complete(line)
    ensures Raw(Latest(line, n), flag) == Said(line, LastIndex(line, n, flag, false), flag)
  {
    if n > 0 {
      LatestIsSaid(line, n - 1, flag);
    }
  }

  lemma {:induction false} OccursInMasked(line: Line, i: nat, flag: Flag)
    requires i < |line| && flag != Other
    ensures Occurs(Masked(line), i, flag, false) <==> Occurs(line, i, flag, true)
  {
    assert Masked(line)[i] == if Consumed(line, i) then line[i].(flag := Other) else line[i];
  }

  lemma {:induction false} SameOccurrences(a: Line, b: Line, n: nat, flag: Flag)
    requires n <= |a| == |b| && forall i :: 0 <= i < n ==> (Occurs(a, i, flag, false) <==> Occurs(b, i, flag, true))
    ensures LastIndex(a, n, flag, false) == LastIndex(b, n, flag, true)
  {
    if n > 0 && !Occurs(a, n - 1, flag, false) {
      SameOccurrences(a, b, n - 1, flag);
    }
  }

  lemma ProperInMasked(line: Line, flag: Flag)
    requires flag != Other
    ensures LastIndex(Masked(line), |line|, flag, false) == LastIndex(line, |line|, flag, true)
  {
    forall i | 0 <= i < |line| ensures Occurs(Masked(line), i, flag, false) <==> Occurs(line, i, flag, true) {
      OccursInMasked(line, i, flag);
    }
    SameOccurrences(Masked(line), line, |line|, flag);
  }

  /** The parser has what the last proper occurrence says. */
  lemma LatestProperIsSaid(line: Line, flag: Flag)
    requires flag != Other && Complete(line)
    ensures Raw(Latest(Masked(line), |line|), flag) == Said(line, LastIndex(line, |line|, flag, true), flag)
  {
    LatestIsSaid(Masked(line), |line|, flag);
    ProperInMasked(line, flag);
  }

  /** Scan and parser read a flag alike: its last occurrence is a proper one, or says the same as the
      last proper one. */
  ghost predicate ReadAlike(line: Line, flag: Flag) {
    var l, m := LastIndex(line, |line|, flag, false), LastIndex(line, |line|, flag, true);
    l.None? || !Consumed(line, l.value) || (m.Some? && Said(line, m, flag) == Said(line, l, flag))
  }

  /** Flag by flag, on every list that can be scanned: both have the same value for a flag exactly when
      they read it alike. */
  lemma FlagsReadAlike(line: Line, flag: Flag)
    requires flag != Other && Complete(line)
    ensures Raw(Latest(line, |line|), flag) == Raw(Latest(Masked(line), |line|), flag) <==> ReadAlike(line, flag)
  {
    LatestIsSaid(line, |line|, flag);
    LatestProperIsSaid(line, flag);
    ProperOrNot(line, flag);
  }

  lemma ProperOrNot(line: Line, flag: Flag)
    ensures var l, m := LastIndex(line, |line|, flag, false), LastIndex(line, |line|, flag, true);
      && (l.None? ==> m.None?)
      && (l.Some? && !Consumed(line, l.value) ==> m == l)
  {
    var l, m := LastIndex(line, |line|, flag, false), LastIndex(line, |line|, flag, true);
    if m.Some? {
      assert Occurs(line, m.value, flag, false);
    }
    if l.Some? && !Consumed(line, l.value) {
      assert Occurs(line, l.value, flag, true);
    }
  }

  /** Scan and parser take in the same value for every flag exactly when every flag is read alike. */
  lemma ValuesAgree(line: Line)
    requires Complete(line)
    ensures Latest(line, |line|) == Latest(Masked(line), |line|) <==> forall flag :: flag != Other ==> ReadAlike(line, flag)
  {
    var a, b := Latest(line, |line|), Latest(Masked(line), |line|);
    forall flag | flag != Other ensures Raw(a, flag) == Raw(b, flag) <==> ReadAlike(line, flag) {
      FlagsReadAlike(line, flag);
    }
    NoValueForOther(line, |line|);
    NoValueForOther(Masked(line), |line|);
    SameWhenRawAgree(a, b);
  }

  lemma ScannedIsComplete(line: Line, csv: Csv)
    requires ScanOf(line, csv).Scanned?
    ensures Complete(line)
  {
    assert line != [] ==> !Stops(line, |line| - 1, csv);
  }

  /** Both give the same settings when every flag is read alike; otherwise some flag has two values. */
  lemma {:induction false} ScanAgreesExactly(line: Line, csv: Csv)
    requires ScanOf(line, csv).Scanned?
    ensures Latest(line, |line|) == Latest(Masked(line), |line|) <==> forall flag :: flag != Other ==> ReadAlike(line, flag)
    ensures (forall flag :: flag != Other ==> ReadAlike(line, flag)) ==> ParsePairs(line, 0, NOTHING, csv) == ScanOf(line, csv)
  {
    ScannedIsComplete(line, csv);
    ValuesAgree(line);
    ScanFailsMoreOften(line, csv);
    PairsAreAMaskedScan(line, csv);
  }

  /** The two name the cluster differently exactly when the last `-c` is the value of another flag and
      says something else than the last proper `-c`, or than nothing if there is none. */
  lemma {:induction false} ClusterNameDiffers(line: Line, csv: Csv)
    requires ScanOf(line, csv).Scanned?
    ensures ParsePairs(line, 0, NOTHING, csv).Scanned?
    ensures ScanOf(line, csv).settings.clusterName != ParsePairs(line, 0, NOTHING, csv).settings.clusterName <==>
      var l, m := LastIndex(line, |line|, Name, false), LastIndex(line, |line|, Name, true);
      l.Some? && Consumed(line, l.value) && TextOf(Said(line, l, Name)) != TextOf(Said(line, m, Name))
  {
    ScannedIsComplete(line, csv);
    ScanFailsMoreOften(line, csv);
    PairsAreAMaskedScan(line, csv);
    LatestIsSaid(line, |line|, Name);
    LatestProperIsSaid(line, Name);
    ProperOrNot(line, Name);
    NameIsRaw(Latest(line, |line|), csv);
    NameIsRaw(Latest(Masked(line), |line|), csv);
  }

  function TextOf(said: Option<string>): string { if said.Some? then said.value else "" }

  lemma NameIsRaw(values: map<Flag, string>, csv: Csv)
    ensures Interpret(values, csv).clusterName == TextOf(Raw(values, Name))
  {
  }

  lemma SameWhenRawAgree(a: map<Flag, string>, b: map<Flag, string>)
    requires Other !in a && Other !in b
    ensures a == b <==> forall flag :: flag != Other ==> Raw(a, flag) == Raw(b, flag)
  {
    if forall flag :: flag != Other ==> Raw(a, flag) == Raw(b, flag) {
      assert forall flag :: flag in a ==> Raw(a, flag) == Raw(b, flag);
      assert forall flag :: flag in b ==> Raw(a, flag) == Raw(b, flag);
    }
  }

  lemma {:induction false} NoValueForOther(line: Line, n: nat)
    requires n <= |line|
    ensures Other !in Latest(line, n)
  {
    if n > 0 {
      NoValueForOther(line, n - 1);
    }
  }

  lemma InternalIsSeen(line: Line)
    requires Complete(line)
    ensures Internal in Latest(line, |line|) <==> exists i :: 0 <= i < |line| && line[i].flag == Internal
    ensures Internal in Latest(Masked(line), |line|) <==>
      exists i :: 0 <= i < |line| && line[i].flag == Internal && !Consumed(line, i)
  {
    LatestIsSaid(line, |line|, Internal);
    LatestProperIsSaid(line, Internal);
    if i :| 0 <= i < |line| && line[i].flag == Internal {
      assert Occurs(line, i, Internal, false);
    }
    if i :| 0 <= i < |line| && line[i].flag == Internal && !Consumed(line, i) {
      assert Occurs(line, i, Internal, true);
    }
  }

  /** Internal etcd: the scan sees it and the parser does not, exactly when `-b` occurs and every
      occurrence is the value of another flag. */
  lemma {:induction false} InternalEtcdDiffers(line: Line, csv: Csv)
    requires ScanOf(line, csv).Scanned?
    ensures ParsePairs(line, 0, NOTHING, csv).Scanned?
    ensures ScanOf(line, csv).settings.internal != ParsePairs(line, 0, NOTHING, csv).settings.internal <==>
      && (exists i :: 0 <= i < |line| && line[i].flag == Internal)
      && (forall i :: 0 <= i < |line| && line[i].flag == Internal ==> Consumed(line, i))
  {
    ScanFailsMoreOften(line, csv);
    PairsAreAMaskedScan(line, csv);
    ScannedIsComplete(line, csv);
    InternalIsSeen(line);
  }

  /** A value that is a flag is read twice: a cluster named `-b` is taken for one with internal etcd. */
  lemma ValuesAreScannedToo(csv: Csv)
    ensures var line := [Arg("-c", Name), Arg("-b", Internal)];
      && line == Classify(["-c", "-b"])
      && ScanOf(line, csv) == Scanned(NOTHING.(internal := true, clusterName := "-b"))
      && ParsePairs(line, 0, NOTHING, csv) == Scanned(NOTHING.(clusterName := "-b"))
  {
    var line := [Arg("-c", Name), Arg("-b", Internal)];
    MeantStep(line, 0, csv);
    MeantStep(line, 1, csv);
    assert ParsePairs(line, 2, NOTHING.(clusterName := "-b"), csv) == Scanned(NOTHING.(clusterName := "-b"));
  }

  // ---------------------------------------------------------------- in terms of the texts

  /** The last argument that is one of these texts. */
  ghost predicate LastText(args: seq<string>, i: nat, texts: set<string>) {
    i < |args| && args[i] in texts && forall k :: i < k < |args| ==> args[k] !in texts
  }

  ghost predicate NoText(args: seq<string>, texts: set<string>) { forall k :: 0 <= k < |args| ==> args[k] !in texts }

  /** The argument after the last of these texts, or nothing. */
  ghost predicate SaidAfter(args: seq<string>, texts: set<string>, v: Option<string>) {
    && (forall i: nat :: LastText(args, i, texts) ==> i + 1 < |args| && v == Some(args[i + 1]))
    && (NoText(args, texts) ==> v == None)
  }

  /** What settings say, told from the texts of the arguments alone. */
  ghost predicate ByText(st: Settings, args: seq<string>, csv: Csv) {
    && (st.internal <==> "-b" in args)
    && SaidAfter(args, {"-ca"}, st.opts.ca) && SaidAfter(args, {"-cert"}, st.opts.cert)
    && SaidAfter(args, {"-key"}, st.opts.key) && SaidAfter(args, {"-acl"}, st.opts.acl)
    && (forall i: nat :: LastText(args, i, {"-c"}) ==> i + 1 < |args| && st.clusterName == args[i + 1])
    && (NoText(args, {"-c"}) ==> st.clusterName == "")
    && (forall i: nat :: LastText(args, i, {"-k"}) ==> i + 1 < |args| && csv(args[i + 1]) == Some(st.endpoints))
    && (NoText(args, {"-k"}) ==> st.endpoints == [])
    && (forall i: nat :: LastText(args, i, {"-pwd", "-userpwd"}) ==>
          i + 1 < |args| && Credentials(args[i + 1]).Some? &&
          st.opts.user == Some(Credentials(args[i + 1]).value.0) && st.opts.password == Some(Credentials(args[i + 1]).value.1))
    && (NoText(args, {"-pwd", "-userpwd"}) ==> st.opts.user == None && st.opts.password == None)
  }

  /** A flag is written in these ways. */
  ghost predicate WrittenAs(flag: Flag, texts: set<string>) { forall arg :: FlagOf(arg) == flag <==> arg in texts }

  lemma FlagsAreWritten()
    ensures WrittenAs(Internal, {"-b"}) && WrittenAs(Name, {"-c"}) && WrittenAs(Endpoints, {"-k"})
    ensures WrittenAs(Login, {"-pwd", "-userpwd"})
  {
  }

  lemma FileFlagsAreWritten()
    ensures WrittenAs(CaFile, {"-ca"}) && WrittenAs(CertFile, {"-cert"}) && WrittenAs(KeyFile, {"-key"}) && WrittenAs(AclToken, {"-acl"})
  {
  }

  lemma RawByOccurrence(line: Line, args: seq<string>, flag: Flag, texts: set<string>)
    requires flag != Other && Complete(line) && |line| == |args|
    requires forall i :: 0 <= i < |args| ==> line[i].text == args[i] && (line[i].flag == flag <==> args[i] in texts)
    ensures TakesValue(flag) ==> SaidAfter(args, texts, Raw(Latest(line, |args|), flag))
    ensures flag in Latest(line, |args|) <==> !NoText(args, texts)
  {
    var l := LastIndex(line, |args|, flag, false);
    LatestIsSaid(line, |args|, flag);
    if l.Some? {
      assert args[l.value] in texts;
      forall i: nat | LastText(args, i, texts) ensures i == l.value {
        assert Occurs(line, i, flag, false);
      }
    } else {
      forall k | 0 <= k < |args| ensures args[k] !in texts {
        assert !Occurs(line, k, flag, false);
      }
    }
  }

  lemma ClassifiedAt(args: seq<string>, i: nat, flag: Flag, texts: set<string>)
    requires i < |args| && WrittenAs(flag, texts)
    ensures Classify(args)[i].text == args[i] && (Classify(args)[i].flag == flag <==> args[i] in texts)
  {
    assert FlagOf(args[i]) == flag <==> args[i] in texts;
  }

  lemma {:induction false} RawByText(args: seq<string>, flag: Flag, texts: set<string>)
    requires flag != Other && WrittenAs(flag, texts) && Complete(Classify(args))
    ensures TakesValue(flag) ==> SaidAfter(args, texts, Raw(Latest(Classify(args), |args|), flag))
    ensures flag in Latest(Classify(args), |args|) <==> !NoText(args, texts)
  {
    var line := Classify(args);
    forall i | 0 <= i < |args| ensures line[i].text == args[i] && (line[i].flag == flag <==> args[i] in texts) {
      ClassifiedAt(args, i, flag, texts);
    }
    RawByOccurrence(line, args, flag, texts);
  }

  /** A scan that reaches the end reads every setting after the last text of its flag, whatever else is
      among the arguments. */
  lemma {:induction false} ScanByText(args: seq<string>, csv: Csv)
    requires ScanOf(Classify(args), csv).Scanned?
    ensures ByText(ScanOf(Classify(args), csv).settings, args, csv)
  {
    var line := Classify(args);
    ScannedIsComplete(line, csv);
    FlagsAreWritten();
    FileFlagsAreWritten();
    RawByText(args, Internal, {"-b"});
    RawByText(args, CaFile, {"-ca"});
    RawByText(args, CertFile, {"-cert"});
    RawByText(args, KeyFile, {"-key"});
    RawByText(args, AclToken, {"-acl"});
    NameByText(args, csv);
    EndpointsByText(args, csv);
    LoginByText(args, csv);
  }

  lemma NameByText(args: seq<string>, csv: Csv)
    requires Complete(Classify(args)) && WrittenAs(Name, {"-c"})
    ensures var st := Meant(Classify(args), |args|, csv);
      && (forall i: nat :: LastText(args, i, {"-c"}) ==> i + 1 < |args| && st.clusterName == args[i + 1])
      && (NoText(args, {"-c"}) ==> st.clusterName == "")
  {
    RawByText(args, Name, {"-c"});
  }

  lemma EndpointsByText(args: seq<string>, csv: Csv)
    requires ScanOf(Classify(args), csv).Scanned? && Complete(Classify(args)) && WrittenAs(Endpoints, {"-k"})
    ensures var st := Meant(Classify(args), |args|, csv);
      && (forall i: nat :: LastText(args, i, {"-k"}) ==> i + 1 < |args| && csv(args[i + 1]) == Some(st.endpoints))
      && (NoText(args, {"-k"}) ==> st.endpoints == [])
  {
    RawByText(args, Endpoints, {"-k"});
    forall i: nat | LastText(args, i, {"-k"}) ensures csv(args[i + 1]).Some? {
      assert !Stops(Classify(args), i, csv);
    }
  }

  lemma LoginByText(args: seq<string>, csv: Csv)
    requires ScanOf(Classify(args), csv).Scanned? && Complete(Classify(args)) && WrittenAs(Login, {"-pwd", "-userpwd"})
    ensures var opts := Meant(Classify(args), |args|, csv).opts;
      && (forall i: nat :: LastText(args, i, {"-pwd", "-userpwd"}) ==>
            i + 1 < |args| && Credentials(args[i + 1]).Some? &&
            opts.user == Some(Credentials(args[i + 1]).value.0) && opts.password == Some(Credentials(args[i + 1]).value.1))
      && (NoText(args, {"-pwd", "-userpwd"}) ==> opts.user == None && opts.password == None)
  {
    RawByText(args, Login, {"-pwd", "-userpwd"});
    forall i: nat | LastText(args, i, {"-pwd", "-userpwd"}) ensures Credentials(args[i + 1]).Some? {
      assert !Stops(Classify(args), i, csv);
    }
  }

  // ---------------------------------------------------------------- environment references

  /** A secret's content; reading it may fail. */
  type Secrets = (string, string) -> Option<string>

  predicate IsReference(value: string) { |value| >= 2 && value[0] == '$' }

  /** A variable of that name which has a value or a source ends the search. */
  predicate Decides(v: EnvVar, reference: string)
    requires IsReference(reference)
  {
    v.name == reference[1..] && (v.value != "" || !v.source.NoSource?)
  }

  function Content(v: EnvVar, secrets: Secrets): Option<string> {
    if v.value != "" then Some(v.value)
    else if v.source.SecretKey? then secrets(v.source.name, v.source.key)
    else None
  }

  ghost predicate FirstDecides(env: seq<EnvVar>, i: nat, reference: string)
    requires IsReference(reference)
  {
    i < |env| && Decides(env[i], reference) && forall k :: 0 <= k < i ==> !Decides(env[k], reference)
  }

  /** What a value stands for: the content of the first variable that decides, or itself. */
  ghost function Denoted(value: string, env: seq<EnvVar>, secrets: Secrets): Option<string> {
    if IsReference(value) && exists i: nat :: FirstDecides(env, i, value) then
      var i: nat :| FirstDecides(env, i, value);
      Content(env[i], secrets)
    else Some(value)
  }

  /** `extractEnv`. */
  method ExtractEnv(value: string, env: seq<EnvVar>, secrets: Secrets) returns (r: Option<string>)
    ensures r == Denoted(value, env, secrets)
  {
    if |value| < 2 || value[0] != '$' {
      return Some(value);
    }
    var look4 := value[1..];
    for n := 0 to |env|
      invariant forall k :: 0 <= k < n ==> !Decides(env[k], value)
    {
      var v := env[n];
      if v.name == look4 {
        if v.value != "" {
          assert FirstDecides(env, n, value);
          return Some(v.value);
        }
        if v.source != NoSource {
          assert FirstDecides(env, n, value);
          if v.source.SecretKey? {
            r := secrets(v.source.name, v.source.key);
            return;
          }
          return None;
        }
      }
    }
    return Some(value);
  }

  // ---------------------------------------------------------------- the whole configuration

  /** Settings fit for use, settings of a cluster with internal etcd, an error, or a crash. */
  datatype Parsed = Usable(settings: Settings) | InternalEtcd(settings: Settings) | Unusable | Crashed

  ghost function PxLine(t: Template): Line { if HasPx(t) then Classify(PxContainer(t).args) else [] }

  ghost function PxEnv(t: Template): seq<EnvVar> { if HasPx(t) then PxContainer(t).env else [] }

  /** The user and the password are looked up when the user looks like a reference. */
  ghost function LoggedIn(opts: KvdbOpts, env: seq<EnvVar>, secrets: Secrets): Option<KvdbOpts> {
    if opts.user.None? || opts.user.value == "" || opts.user.value[0] != '$' then Some(opts)
    else
      var user := Denoted(opts.user.value, env, secrets);
      var password := Denoted(if opts.password.Some? then opts.password.value else "", env, secrets);
      if user.None? || password.None? then None else Some(opts.(user := user, password := password))
  }

  ghost function ParsedFrom(line: Line, env: seq<EnvVar>, csv: Csv, secrets: Secrets): Parsed {
    var scan := ScanOf(line, csv);
    if scan.OutOfRange? then Crashed
    else if scan.Rejected? || LoggedIn(scan.settings.opts, env, secrets).None? then Unusable
    else
      var st := scan.settings.(opts := LoggedIn(scan.settings.opts, env, secrets).value);
      if st.internal then InternalEtcd(st)
      else if st.endpoints == [] || st.clusterName == "" then Unusable
      else Usable(st)
  }

  /** `parseConfigFromDaemonset`, from the containers of the first Portworx daemonset on. */
  method ParseConfig(containers: Template, csv: Csv, secrets: Secrets) returns (r: Parsed)
    ensures r == ParsedFrom(PxLine(containers), PxEnv(containers), csv, secrets)
  {
    var st := NOTHING;
    var idx := 0;
    ghost var px := |containers|;
    for n := 0 to |containers|
      invariant st == NOTHING && px == |containers|
      invariant forall k :: 0 <= k < n ==> containers[k].name != PX_CONTAINER
    {
      if containers[n].name == PX_CONTAINER {
        idx, px := n, n;
        assert FirstPx(containers) == px;
        var scan := ScanArgs(containers[n].args, csv);
        if scan.Rejected? {
          return Unusable;
        }
        if scan.OutOfRange? {
          return Crashed;
        }
        st := scan.settings;
        break;
      }
    }
    assert FirstPx(containers) == px;
    assert ScanOf(PxLine(containers), csv) == Scanned(st);
    if st.opts.user.Some? && st.opts.user.value != "" && st.opts.user.value[0] == '$' {
      var env := containers[idx].env;
      var user := ExtractEnv(st.opts.user.value, env, secrets);
      if user.None? {
        return Unusable;
      }
      var password := ExtractEnv(if st.opts.password.Some? then st.opts.password.value else "", env, secrets);
      if password.None? {
        return Unusable;
      }
      st := st.(opts := st.opts.(user := user, password := password));
    }
    if st.internal {
      return InternalEtcd(st);
    }
    if st.endpoints == [] || st.clusterName == "" {
      return Unusable;
    }
    return Usable(st);
  }

  /** How a login ends up: as it is written, unless the user begins with a dollar sign; then user and
      password are both what they stand for. */
  ghost predicate LookedUp(user: Option<string>, password: Option<string>, opts: KvdbOpts, env: seq<EnvVar>, secrets: Secrets) {
    if user.Some? && ['$'] <= user.value then
      && opts.user.Some? && opts.user == Denoted(user.value, env, secrets)
      && opts.password.Some? && opts.password == Denoted(TextOf(password), env, secrets)
    else opts.user == user && opts.password == password
  }

  /** What there is to go on with comes from the arguments as they are written; only the login may have
      been looked up. */
  lemma ParsedByText(t: Template, csv: Csv, secrets: Secrets)
    requires ParsedFrom(PxLine(t), PxEnv(t), csv, secrets).Usable? || ParsedFrom(PxLine(t), PxEnv(t), csv, secrets).InternalEtcd?
    ensures var st, args := ParsedFrom(PxLine(t), PxEnv(t), csv, secrets).settings, if HasPx(t) then PxContainer(t).args else [];
      exists user, password ::
        && ByText(st.(opts := st.opts.(user := user, password := password)), args, csv)
        && LookedUp(user, password, st.opts, PxEnv(t), secrets)
  {
    var args := if HasPx(t) then PxContainer(t).args else [];
    assert PxLine(t) == Classify(args);
    ScanByText(args, csv);
    var was := ScanOf(Classify(args), csv).settings;
    var st := ParsedFrom(PxLine(t), PxEnv(t), csv, secrets).settings;
    assert st.(opts := st.opts.(user := was.opts.user, password := was.opts.password)) == was;
    assert LookedUp(was.opts.user, was.opts.password, st.opts, PxEnv(t), secrets);
  }

  /** The last occurrence of a flag, when it occurs. */
  ghost predicate LastAt(line: Line, i: nat, flag: Flag) {
    i < |line| && line[i].flag == flag && forall k :: i < k < |line| ==> line[k].flag != flag
  }

  lemma {:induction false} SomeLast(line: Line, n: nat, flag: Flag) returns (i: nat)
    requires n <= |line| && exists k :: 0 <= k < n && line[k].flag == flag
    ensures i < n && line[i].flag == flag && forall k :: i < k < n ==> line[k].flag != flag
  {
    if line[n - 1].flag == flag {
      i := n - 1;
    } else {
      i := SomeLast(line, n - 1, flag);
    }
  }

  /** A usable configuration has no `-b` argument anywhere, its name is the argument after the last
      `-c`, and its endpoints are those listed after the last `-k`; neither is empty. */
  lemma UsableSettings(line: Line, env: seq<EnvVar>, csv: Csv, secrets: Secrets) returns (c: nat, k: nat)
    requires ParsedFrom(line, env, csv, secrets).Usable?
    ensures forall i :: 0 <= i < |line| ==> line[i].flag != Internal
    ensures var st := ParsedFrom(line, env, csv, secrets).settings;
      && LastAt(line, c, Name) && c + 1 < |line| && st.clusterName == line[c + 1].text != ""
      && LastAt(line, k, Endpoints) && k + 1 < |line| && csv(line[k + 1].text) == Some(st.endpoints) && st.endpoints != []
  {
    ghost var st := ParsedFrom(line, env, csv, secrets).settings;
    var n := |line|;
    if i :| 0 <= i < n && line[i].flag == Internal {
      var last := SomeLast(line, n, Internal);
      LastOccurrenceWins(line, n, last);
    }
    if forall i :: 0 <= i < n ==> line[i].flag != Name {
      AbsentHasNoValue(line, n, Name);
    }
    if forall i :: 0 <= i < n ==> line[i].flag != Endpoints {
      AbsentHasNoValue(line, n, Endpoints);
    }
    c := SomeLast(line, n, Name);
    k := SomeLast(line, n, Endpoints);
    assert !Stops(line, c, csv) && !Stops(line, k, csv);
    LastOccurrenceWins(line, n, c);
    LastOccurrenceWins(line, n, k);
  }
}
