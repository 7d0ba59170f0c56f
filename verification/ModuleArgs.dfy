/** How the daemon's virtual devices are recognised: by the words of the argument line a
    sound-server module was loaded with. */
module ModuleArgs {
  import opened Wire

  datatype Role = MicOutSink | VirtualMicSource | RemoteInSink

  const ORDER: seq<Role> := [MicOutSink, VirtualMicSource, RemoteInSink]

  function Index(role: Role): nat {
    match role case MicOutSink => 0 case VirtualMicSource => 1 case RemoteInSink => 2
  }

  /** A module as the sound server lists it. */
  datatype PactlModule = PactlModule(name: string, argument: string)

  // ---- Reading an argument line ----

  predicate IsSpace(c: char) {
    || '\U{0009}' <= c <= '\U{000D}' || c == ' ' || c == '\U{0085}' || c == '\U{00A0}' || c == '\U{1680}'
    || '\U{2000}' <= c <= '\U{200A}' || c == '\U{2028}' || c == '\U{2029}' || c == '\U{202F}' || c == '\U{205F}'
    || c == '\U{3000}'
  }

  predicate IsEquals(c: char) {
    c == '='
  }

  /** The position of the first such character, or the length if there is none. */
  function Find(s: string, wanted: char -> bool): (n: nat)
    ensures n <= |s| && (n < |s| ==> wanted(s[n])) && forall i :: 0 <= i < n ==> !wanted(s[i])
  {
    if s == [] || wanted(s[0]) then 0 else Find(s[1..], wanted) + 1
  }

  function SplitWhitespace(s: string): seq<string>
    decreases |s|
  {
    if s == [] then []
    else
      var n := Find(s, IsSpace);
      if n == 0 then SplitWhitespace(s[1..]) else [s[..n]] + SplitWhitespace(s[n..])
  }

  function SplitOnce(s: string): Option<(string, string)> {
    var n := Find(s, IsEquals);
    if n == |s| then None else Some((s[..n], s[n + 1..]))
  }

  /** The settings among the words; a later setting of the same key replaces an earlier one. */
  function Settings(words: seq<string>): map<string, string> {
    if words == [] then map[]
    else
      var earlier := Settings(words[..|words| - 1]);
      match SplitOnce(words[|words| - 1])
      case None => earlier
      case Some((key, value)) => earlier[key := value]
  }

  function Arguments(m: PactlModule): map<string, string> {
    Settings(SplitWhitespace(m.argument))
  }

  // ---- The vocabulary ----

  datatype Key =
    | SinkName | SourceName | Master | Rate | Channels | ChannelMap | Remix
    | SinkProperties | SourceProperties | Owner | Generation

  function KeyText(k: Key): string {
    match k
    case SinkName => "sink_name"
    case SourceName => "source_name"
    case Master => "master"
    case Rate => "rate"
    case Channels => "channels"
    case ChannelMap => "channel_map"
    case Remix => "remix"
    case SinkProperties => "sink_properties"
    case SourceProperties => "source_properties"
    case Owner => "translator.owner"
    case Generation => "translator.generation"
  }

  datatype Value =
    | MicOut | MicOutMonitor | VirtualMic | RemoteIn | Hz48000 | One | Two | Mono | Stereo | No | True
    | DescribedMicOut | DescribedVirtualMic | DescribedRemoteIn

  function ValueText(v: Value): string {
    match v
    case MicOut => "translator_mic_out"
    case MicOutMonitor => "translator_mic_out.monitor"
    case VirtualMic => "translator_virtual_mic"
    case RemoteIn => "translator_remote_in"
    case Hz48000 => "48000"
    case One => "1"
    case Two => "2"
    case Mono => "mono"
    case Stereo => "front-left,front-right"
    case No => "no"
    case True => "true"
    case DescribedMicOut => "device.description=Translator_Mic_Out"
    case DescribedVirtualMic => "device.description=Translator_Virtual_Mic"
    case DescribedRemoteIn => "device.description=Translator_Remote_In"
  }

  function ModuleName(role: Role): string {
    if role.VirtualMicSource? then "module-remap-source" else "module-null-sink"
  }

  function EndpointName(role: Role): string {
    match role
    case MicOutSink => ValueText(MicOut)
    case VirtualMicSource => ValueText(VirtualMic)
    case RemoteInSink => ValueText(RemoteIn)
  }

  /** What a role's device is made with, apart from the daemon's mark. */
  function Making(role: Role): seq<(Key, Value)> {
    match role
    case MicOutSink =>
      [(SinkName, MicOut), (Rate, Hz48000), (Channels, One), (ChannelMap, Mono), (SinkProperties, DescribedMicOut)]
    case VirtualMicSource =>
      [(Master, MicOutMonitor), (SourceName, VirtualMic), (Channels, One), (ChannelMap, Mono), (Remix, No),
       (SourceProperties, DescribedVirtualMic)]
    case RemoteInSink =>
      [(SinkName, RemoteIn), (Rate, Hz48000), (Channels, Two), (ChannelMap, Stereo),
          (SinkProperties, DescribedRemoteIn)]
  }

  // ---- Writing a line ----

  /** A setting as it is written. */
  function Written(pair: (string, string)): string {
    pair.0 + "=" + pair.1
  }

  function WrittenAll(pairs: seq<(string, string)>): seq<string> {
    seq(|pairs|, i requires 0 <= i < |pairs| => Written(pairs[i]))
  }

  function Spelled(making: seq<(Key, Value)>): seq<(string, string)> {
    seq(|making|, i requires 0 <= i < |making| => (KeyText(making[i].0), ValueText(making[i].1)))
  }

  function Join(words: seq<string>): string {
    if words == [] then "" else if |words| == 1 then words[0] else words[0] + " " + Join(words[1..])
  }

  /** The daemon's mark. */
  function Mark(generation: string): seq<(string, string)> {
    [(KeyText(Owner), ValueText(True)), (KeyText(Generation), generation)]
  }

  /** The command that loads a role's module; its last argument is several words. */
  function LoadArgs(role: Role, generation: string): (args: seq<string>)
    ensures |args| >= 2
  {
    var made := Spelled(Making(role));
    ["load-module", ModuleName(role)] + WrittenAll(made[..|made| - 1]) +
    [Join(WrittenAll(made[|made| - 1..] + Mark(generation)))]
  }

  /** The module the sound server then lists. */
  function Loaded(role: Role, generation: string): PactlModule {
    var args := LoadArgs(role, generation);
    PactlModule(args[1], Join(args[2..]))
  }

  // ---- Recognising a module ----

  predicate Has(arguments: map<string, string>, key: string, value: string) {
    key in arguments && arguments[key] == value
  }

  predicate Owned(arguments: map<string, string>, generation: string) {
    Has(arguments, KeyText(Owner), ValueText(True)) && Has(arguments, KeyText(Generation), generation)
  }

  predicate ModuleMatches(role: Role, m: PactlModule, generation: string) {
    && m.name == ModuleName(role)
    && (forall s <- Making(role) :: Has(Arguments(m), KeyText(s.0), ValueText(s.1)))
    && Owned(Arguments(m), generation)
  }

  function ClaimedRole(m: PactlModule, generation: string): Option<Role> {
    var a := Arguments(m);
    if !Owned(a, generation) then None
    else
      match (Lookup(a, KeyText(SinkName)), Lookup(a, KeyText(SourceName)))
      case (Some(name), None) =>
        if name == ValueText(MicOut) then Some(MicOutSink)
        else if name == ValueText(RemoteIn) then Some(RemoteInSink) else None
      case (None, Some(name)) => if name == ValueText(VirtualMic) then Some(VirtualMicSource) else None
      case _ => None
  }

  /** The daemon's mark, whatever the generation. */
  predicate Tagged(m: PactlModule) {
    Has(Arguments(m), KeyText(Owner), ValueText(True))
  }

  predicate GenerationChar(c: char) {
    'a' <= c <= 'z' || 'A' <= c <= 'Z' || '0' <= c <= '9' || c == '-'
  }

  predicate ValidGeneration(s: string) {
    1 <= |s| <= 64 && forall c <- s :: GenerationChar(c)
  }

  // ---- What is written is recognised ----

  predicate Plain(s: string) {
    forall i :: 0 <= i < |s| ==> !IsSpace(s[i]) && !IsEquals(s[i])
  }

  predicate Spaceless(s: string) {
    forall i :: 0 <= i < |s| ==> !IsSpace(s[i])
  }

  lemma {:induction false} FindFirst(s: string, wanted: char -> bool, n: nat)
    requires n <= |s| && (n < |s| ==> wanted(s[n])) && forall i :: 0 <= i < n ==> !wanted(s[i])
    ensures Find(s, wanted) == n
  {}

  /** A word and the rest of the line. */
  lemma SplitWord(word: string, rest: string)
    requires word != "" && Spaceless(word)
    ensures SplitWhitespace(word + " " + rest) == [word] + SplitWhitespace(rest)
    ensures SplitWhitespace(word) == [word]
  {
    var s := word + " " + rest;
    FindFirst(s, IsSpace, |word|);
    FindFirst(word, IsSpace, |word|);
    assert s[..|word|] == word && s[|word|..] == " " + rest && (" " + rest)[1..] == rest;
    FindFirst(" " + rest, IsSpace, 0);
    assert word[..|word|] == word && word[|word|..] == [];
  }

  lemma SplitSetting(key: string, value: string)
    requires Plain(key)
    ensures SplitOnce(key + "=" + value) == Some((key, value))
  {
    var s := key + "=" + value;
    assert s[|key|] == '=';
    FindFirst(s, IsEquals, |key|);
    assert s[..|key|] == key && s[|key| + 1..] == value;
  }

  ghost predicate Writable(pair: (string, string)) {
    Plain(pair.0) && Spaceless(pair.1)
  }

  function Paired(pairs: seq<(string, string)>): map<string, string> {
    if pairs == [] then map[] else Paired(pairs[..|pairs| - 1])[pairs[|pairs| - 1].0 := pairs[|pairs| - 1].1]
  }

  lemma {:induction false} SplitJoined(pairs: seq<(string, string)>)
    requires forall i :: 0 <= i < |pairs| ==> Writable(pairs[i])
    ensures SplitWhitespace(Join(WrittenAll(pairs))) == WrittenAll(pairs)
  {
    var words := WrittenAll(pairs);
    if pairs != [] {
      SplitWord(words[0], Join(words[1..]));
      assert words[1..] == WrittenAll(pairs[1..]);
      SplitJoined(pairs[1..]);
      assert |words| == 1 ==> words == [words[0]];
      assert words == [words[0]] + words[1..];
    }
  }

  lemma {:induction false} SettingsOfWritten(pairs: seq<(string, string)>)
    requires forall i :: 0 <= i < |pairs| ==> Writable(pairs[i])
    ensures Settings(WrittenAll(pairs)) == Paired(pairs)
  {
    if pairs != [] {
      var n := |pairs| - 1;
      SettingsOfWritten(pairs[..n]);
      assert WrittenAll(pairs)[..n] == WrittenAll(pairs[..n]);
      SplitSetting(pairs[n].0, pairs[n].1);
    }
  }

  lemma ShortKeysPlain(k: Key)
    requires k in {SinkName, SourceName, Master, Rate, Channels, ChannelMap, Remix}
    ensures Plain(KeyText(k))
  {}

  lemma LongKeysPlain(k: Key)
    requires k in {SinkProperties, SourceProperties, Owner, Generation}
    ensures Plain(KeyText(k))
  {}

  lemma KeysPlain(k: Key)
    ensures Plain(KeyText(k))
  {
    hide KeyText;
    if k in {SinkProperties, SourceProperties, Owner, Generation} {
      LongKeysPlain(k);
    } else {
      ShortKeysPlain(k);
    }
  }

  lemma KeysApart(a: Key, b: Key)
    requires KeyText(a) == KeyText(b)
    ensures a == b
  {
    KeyLength(a);
    KeyLength(b);
    assert KeyText(SourceName)[0] != KeyText(ChannelMap)[0];
    hide KeyText;
  }

  lemma KeyLength(k: Key)
    ensures |KeyText(k)| == match k
      case SinkName => 9 case SourceName => 11 case Master => 6 case Rate => 4 case Channels => 8 case ChannelMap => 11
      case Remix => 5 case SinkProperties => 15 case SourceProperties => 17 case Owner => 16 case Generation => 21
  {}

  predicate Inked(s: string) {
    forall i :: 0 <= i < |s| ==> '!' <= s[i] <= '~'
  }

  lemma NamesInked(v: Value)
    requires v in {MicOut, MicOutMonitor, VirtualMic, RemoteIn}
    ensures Inked(ValueText(v))
  {}

  lemma SettingsInked(v: Value)
    requires v in {Hz48000, One, Two, Mono, Stereo, No, True}
    ensures Inked(ValueText(v))
  {}

  lemma DescriptionsInked()
    ensures Inked(ValueText(DescribedMicOut))
    ensures Inked(ValueText(DescribedVirtualMic))
    ensures Inked(ValueText(DescribedRemoteIn))
  {}

  lemma ValuesSpaceless(v: Value)
    ensures Spaceless(ValueText(v))
  {
    hide ValueText;
    DescriptionsInked();
    if v in {MicOut, MicOutMonitor, VirtualMic, RemoteIn} {
      NamesInked(v);
    } else if v in {Hz48000, One, Two, Mono, Stereo, No, True} {
      SettingsInked(v);
    }
  }

  lemma NamesApart()
    ensures ValueText(MicOut) != ValueText(RemoteIn)
    ensures ModuleName(MicOutSink) == ModuleName(RemoteInSink) != ModuleName(VirtualMicSource)
  {
    assert |ValueText(MicOut)| == 18 && |ValueText(RemoteIn)| == 20;
    assert |ModuleName(MicOutSink)| == 16 && |ModuleName(VirtualMicSource)| == 19;
  }

  lemma {:induction false} JoinNested(words: seq<string>, last: seq<string>)
    requires last != []
    ensures Join(words + [Join(last)]) == Join(words + last)
  {
    if words == [] {
      assert words + last == last;
    } else {
      assert (words + [Join(last)])[1..] == words[1..] + [Join(last)];
      assert (words + last)[1..] == words[1..] + last;
      JoinNested(words[1..], last);
    }
  }

  /** All the settings of a role's module. */
  function AllSettings(role: Role, generation: string): seq<(string, string)> {
    Spelled(Making(role)) + Mark(generation)
  }

  lemma SettingsWritable(role: Role, g: string)
    requires ValidGeneration(g)
    ensures forall i :: 0 <= i < |AllSettings(role, g)| ==> Writable(AllSettings(role, g)[i])
  {
    hide KeyText, ValueText;
    forall k ensures Plain(KeyText(k)) { KeysPlain(k); }
    forall v ensures Spaceless(ValueText(v)) { ValuesSpaceless(v); }
    assert Spaceless(g) by {
      forall i | 0 <= i < |g| ensures !IsSpace(g[i]) { assert g[i] in g; }
    }
  }

  /** Read back, the argument line of a loaded module is its settings. */
  lemma LoadedArguments(role: Role, g: string)
    requires ValidGeneration(g)
    ensures Arguments(Loaded(role, g)) == Paired(AllSettings(role, g))
    ensures Loaded(role, g).name == ModuleName(role)
  {
    hide KeyText, ValueText, ModuleName, SplitWhitespace, Settings, Paired;
    var (made, pairs, args) := (Spelled(Making(role)), AllSettings(role, g), LoadArgs(role, g));
    var (first, last) := (made[..|made| - 1], made[|made| - 1..] + Mark(g));
    assert args[2..] == WrittenAll(first) + [Join(WrittenAll(last))];
    JoinNested(WrittenAll(first), WrittenAll(last));
    assert WrittenAll(first) + WrittenAll(last) == WrittenAll(pairs);
    SettingsWritable(role, g);
    SplitJoined(pairs);
    SettingsOfWritten(pairs);
  }

  lemma {:induction false} PairedHas(pairs: seq<(string, string)>)
    requires forall i, j :: 0 <= i < j < |pairs| ==> pairs[i].0 != pairs[j].0
    ensures forall p <- pairs :: Has(Paired(pairs), p.0, p.1)
    ensures forall k <- Paired(pairs) :: exists p <- pairs :: p.0 == k
  {
    if pairs != [] {
      PairedHas(pairs[..|pairs| - 1]);
    }
  }

  lemma SettingsApart(role: Role, g: string)
    ensures forall i, j :: 0 <= i < j < |AllSettings(role, g)| ==>
              AllSettings(role, g)[i].0 != AllSettings(role, g)[j].0
  {
    hide KeyText, ValueText;
    forall a, b | KeyText(a) == KeyText(b) ensures a == b { KeysApart(a, b); }
    assert |Making(role)| == if role.VirtualMicSource? then 6 else 5;
  }

  /** The settings of a loaded module, one by one. */
  lemma LoadedHas(role: Role, g: string)
    requires ValidGeneration(g)
    ensures forall s <- Making(role) :: Has(Arguments(Loaded(role, g)), KeyText(s.0), ValueText(s.1))
    ensures Owned(Arguments(Loaded(role, g)), g)
    ensures Lookup(Arguments(Loaded(role, g)), KeyText(if role.VirtualMicSource? then SinkName else SourceName)) == None
  {
    hide KeyText, ValueText, Arguments, Loaded;
    var (made, pairs) := (Spelled(Making(role)), AllSettings(role, g));
    LoadedArguments(role, g);
    SettingsApart(role, g);
    PairedHas(pairs);
    forall s <- Making(role) ensures (KeyText(s.0), ValueText(s.1)) in pairs {
      var i :| 0 <= i < |Making(role)| && Making(role)[i] == s;
      assert pairs[i] == (KeyText(s.0), ValueText(s.1));
    }
    assert pairs[|made|] == Mark(g)[0] && pairs[|made| + 1] == Mark(g)[1];
    LoadedHasNot(role, g);
  }

  lemma LoadedHasNot(role: Role, g: string)
    ensures forall p <- AllSettings(role, g) :: p.0 != KeyText(if role.VirtualMicSource? then SinkName else SourceName)
  {
    hide KeyText, ValueText;
    forall a, b | KeyText(a) == KeyText(b) ensures a == b { KeysApart(a, b); }
  }

  function Naming(role: Role): (Key, Value) {
    match role
    case MicOutSink => (SinkName, MicOut)
    case VirtualMicSource => (SourceName, VirtualMic)
    case RemoteInSink => (SinkName, RemoteIn)
  }

  lemma MakingNames(role: Role)
    ensures Naming(role) in Making(role)
  {
    assert Making(role)[if role.VirtualMicSource? then 1 else 0] == Naming(role);
  }

  /** A module the daemon loads is recognised for its own role and generation and for no other. */
  lemma RecognisedOnlyAs(role: Role, g: string, role': Role, g': string)
    requires ValidGeneration(g)
    ensures ModuleMatches(role', Loaded(role, g), g') <==> role' == role && g' == g
    ensures ClaimedRole(Loaded(role, g), g') == if g' == g then Some(role) else None
    ensures Tagged(Loaded(role, g))
  {
    hide KeyText, ValueText, Arguments, Loaded, ModuleName;
    LoadedHas(role, g);
    LoadedArguments(role, g);
    NamesApart();
    forall r: Role ensures Naming(r) in Making(r) { MakingNames(r); }
    assert ModuleMatches(role', Loaded(role, g), g') ==>
             Has(Arguments(Loaded(role, g)), KeyText(Naming(role').0), ValueText(Naming(role').1));
  }
}
