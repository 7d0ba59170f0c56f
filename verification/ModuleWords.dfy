/** The words of a module's argument line, spelled out: what the daemon loads its devices with,
    what it recognises them by, and how any line is read. */
module ModuleWords {
  import opened Wire
  import opened ModuleArgs

  // ---- The commands and the marks, word for word ----

  function Setting(key: string, value: string): string {
    key + "=" + value
  }

  /** The last argument: how the device is described, and the daemon's mark. */
  function Marked(properties: string, description: string, g: string): string {
    Setting(properties, description) + " " +
    (Setting("translator.owner", "true") + " " + Setting("translator.generation", g))
  }

  /** The command that loads each device. */
  lemma LoadsWith(g: string)
    ensures LoadArgs(MicOutSink, g) ==
            ["load-module", "module-null-sink", Setting("sink_name", "translator_mic_out"), Setting("rate", "48000"),
             Setting("channels", "1"), Setting("channel_map", "mono"),
             Marked("sink_properties", "device.description=Translator_Mic_Out", g)]
    ensures LoadArgs(VirtualMicSource, g) ==
            ["load-module", "module-remap-source", Setting("master", "translator_mic_out.monitor"),
             Setting("source_name", "translator_virtual_mic"), Setting("channels", "1"),
             Setting("channel_map", "mono"), Setting("remix", "no"),
             Marked("source_properties", "device.description=Translator_Virtual_Mic", g)]
    ensures LoadArgs(RemoteInSink, g) ==
            ["load-module", "module-null-sink", Setting("sink_name", "translator_remote_in"), Setting("rate", "48000"),
             Setting("channels", "2"), Setting("channel_map", "front-left,front-right"),
             Marked("sink_properties", "device.description=Translator_Remote_In", g)]
  {
    hide Join, KeyText, ValueText, ModuleName;
    KeysSpelled();
    ValuesSpelled();
    DescriptionsSpelled();
    NamesSpelled();
    LastArgument(MicOutSink, g);
    LastArgument(VirtualMicSource, g);
    LastArgument(RemoteInSink, g);
  }

  lemma LastArgument(role: Role, g: string)
    ensures var made := Spelled(Making(role));
            var last := made[|made| - 1];
            Join(WrittenAll(made[|made| - 1..] + Mark(g))) == Marked(last.0, last.1, g)
  {
    hide KeyText, ValueText;
    var made := Spelled(Making(role));
    var (pairs, last) := (made[|made| - 1..] + Mark(g), made[|made| - 1]);
    assert pairs == [last, Mark(g)[0], Mark(g)[1]];
    var words := WrittenAll(pairs);
    assert words == [Written(last), Written(Mark(g)[0]), Written(Mark(g)[1])];
    assert words[1..] == [words[1], words[2]] && words[1..][1..] == [words[2]];
    MarkText();
    assert Join([words[2]]) == words[2];
    assert Join(words[1..]) == words[1] + " " + words[2];
  }

  lemma MarkText()
    ensures KeyText(Owner) == "translator.owner" && ValueText(True) == "true"
    ensures KeyText(Generation) == "translator.generation"
  {}

  predicate Marks(a: map<string, string>, g: string) {
    Has(a, "translator.owner", "true") && Has(a, "translator.generation", g)
  }

  /** How the settings are spelled. */
  lemma KeysSpelled()
    ensures KeyText(SinkName) == "sink_name" && KeyText(SourceName) == "source_name" && KeyText(Master) == "master"
    ensures KeyText(Rate) == "rate" && KeyText(Channels) == "channels" && KeyText(ChannelMap) == "channel_map"
    ensures KeyText(Remix) == "remix" && KeyText(SinkProperties) == "sink_properties"
    ensures KeyText(SourceProperties) == "source_properties"
  {}

  lemma ValuesSpelled()
    ensures ValueText(MicOut) == "translator_mic_out" && ValueText(MicOutMonitor) == "translator_mic_out.monitor"
    ensures ValueText(VirtualMic) == "translator_virtual_mic" && ValueText(RemoteIn) == "translator_remote_in"
    ensures ValueText(Hz48000) == "48000" && ValueText(One) == "1" && ValueText(Two) == "2"
    ensures ValueText(Mono) == "mono" && ValueText(Stereo) == "front-left,front-right" && ValueText(No) == "no"
  {}

  lemma DescriptionsSpelled()
    ensures ValueText(DescribedMicOut) == "device.description=Translator_Mic_Out"
    ensures ValueText(DescribedVirtualMic) == "device.description=Translator_Virtual_Mic"
    ensures ValueText(DescribedRemoteIn) == "device.description=Translator_Remote_In"
  {}

  lemma NamesSpelled()
    ensures ModuleName(MicOutSink) == ModuleName(RemoteInSink) == "module-null-sink"
    ensures ModuleName(VirtualMicSource) == "module-remap-source"
  {}

  predicate SetTo(a: map<string, string>, k: Key, v: Value) {
    Has(a, KeyText(k), ValueText(v))
  }

  lemma Made(a: map<string, string>)
    ensures (forall s <- Making(MicOutSink) :: Has(a, KeyText(s.0), ValueText(s.1))) <==>
              && SetTo(a, SinkName, MicOut) && SetTo(a, Rate, Hz48000) && SetTo(a, Channels, One)
              && SetTo(a, ChannelMap, Mono) && SetTo(a, SinkProperties, DescribedMicOut)
    ensures (forall s <- Making(VirtualMicSource) :: Has(a, KeyText(s.0), ValueText(s.1))) <==>
              && SetTo(a, Master, MicOutMonitor) && SetTo(a, SourceName, VirtualMic) && SetTo(a, Channels, One)
              && SetTo(a, ChannelMap, Mono) && SetTo(a, Remix, No) && SetTo(a, SourceProperties, DescribedVirtualMic)
    ensures (forall s <- Making(RemoteInSink) :: Has(a, KeyText(s.0), ValueText(s.1))) <==>
              && SetTo(a, SinkName, RemoteIn) && SetTo(a, Rate, Hz48000) && SetTo(a, Channels, Two)
              && SetTo(a, ChannelMap, Stereo) && SetTo(a, SinkProperties, DescribedRemoteIn)
  {
    hide KeyText, ValueText, Has;
    MadeOf(a, MicOutSink);
    MadeOf(a, VirtualMicSource);
    MadeOf(a, RemoteInSink);
  }

  lemma MadeOf(a: map<string, string>, role: Role)
    ensures (forall s <- Making(role) :: Has(a, KeyText(s.0), ValueText(s.1))) <==>
              forall i :: 0 <= i < |Making(role)| ==> SetTo(a, Making(role)[i].0, Making(role)[i].1)
  {
    hide KeyText, ValueText, Has;
  }

  lemma MarkedIff(a: map<string, string>, g: string)
    ensures Owned(a, g) <==> Marks(a, g)
  {
    MarkText();
    hide KeyText, ValueText;
  }

  /** A module is recognised for a role exactly by these settings and the mark; others, and the
      order they come in, do not matter. */
  lemma MatchesIff(m: PactlModule, g: string)
    ensures var a := Arguments(m);
            && (ModuleMatches(MicOutSink, m, g) <==>
                  && m.name == "module-null-sink" && Has(a, "sink_name", "translator_mic_out")
                  && Has(a, "rate", "48000") && Has(a, "channels", "1") && Has(a, "channel_map", "mono")
                  && Has(a, "sink_properties", "device.description=Translator_Mic_Out") && Marks(a, g))
            && (ModuleMatches(VirtualMicSource, m, g) <==>
                  && m.name == "module-remap-source" && Has(a, "master", "translator_mic_out.monitor")
                  && Has(a, "source_name", "translator_virtual_mic") && Has(a, "channels", "1")
                  && Has(a, "channel_map", "mono") && Has(a, "remix", "no")
                  && Has(a, "source_properties", "device.description=Translator_Virtual_Mic") && Marks(a, g))
            && (ModuleMatches(RemoteInSink, m, g) <==>
                  && m.name == "module-null-sink" && Has(a, "sink_name", "translator_remote_in")
                  && Has(a, "rate", "48000") && Has(a, "channels", "2")
                  && Has(a, "channel_map", "front-left,front-right")
                  && Has(a, "sink_properties", "device.description=Translator_Remote_In") && Marks(a, g))
  {
    hide Arguments, KeyText, ValueText, ModuleName, Making, Has, Marks, Owned;
    KeysSpelled();
    ValuesSpelled();
    DescriptionsSpelled();
    NamesSpelled();
    Made(Arguments(m));
    MarkedIff(Arguments(m), g);
  }

  /** A module claims a role by its mark and its one name. */
  lemma ClaimsIff(m: PactlModule, g: string, role: Role)
    ensures var a := Arguments(m);
            ClaimedRole(m, g) == Some(role) <==>
              && Marks(a, g)
              && match role
                 case MicOutSink => Has(a, "sink_name", "translator_mic_out") && "source_name" !in a
                 case RemoteInSink => Has(a, "sink_name", "translator_remote_in") && "source_name" !in a
                 case VirtualMicSource => Has(a, "source_name", "translator_virtual_mic") && "sink_name" !in a
  {
    hide Arguments, Marks, Owned;
    MarkedIff(Arguments(m), g);
    NamesApart();
    KeysSpelled();
    ValuesSpelled();
    hide KeyText, ValueText;
  }

  // ---- Reading a line ----

  predicate Blank(s: string) {
    forall i :: 0 <= i < |s| ==> IsSpace(s[i])
  }

  /** Words with spaces around and between them. */
  function Weave(gaps: seq<string>, words: seq<string>): string
    requires |gaps| == |words| + 1
  {
    if words == [] then gaps[0] else gaps[0] + words[0] + Weave(gaps[1..], words[1..])
  }

  lemma {:induction false} SkipsBlank(gap: string, rest: string)
    requires Blank(gap)
    ensures SplitWhitespace(gap + rest) == SplitWhitespace(rest)
  {
    if gap == "" {
      assert gap + rest == rest;
    } else {
      FindFirst(gap + rest, IsSpace, 0);
      assert (gap + rest)[1..] == gap[1..] + rest;
      SkipsBlank(gap[1..], rest);
    }
  }

  lemma TakesWord(word: string, rest: string)
    requires word != "" && Spaceless(word) && (rest == "" || IsSpace(rest[0]))
    ensures SplitWhitespace(word + rest) == [word] + SplitWhitespace(rest)
  {
    var s := word + rest;
    FindFirst(s, IsSpace, |word|);
    assert s[..|word|] == word && s[|word|..] == rest;
  }

  /** However they are spaced, the words of a line are read off it. */
  lemma {:induction false} WordsRead(gaps: seq<string>, words: seq<string>)
    requires |gaps| == |words| + 1 && forall i :: 0 <= i < |gaps| ==> Blank(gaps[i])
    requires forall i :: 0 < i < |words| ==> gaps[i] != ""
    requires forall i :: 0 <= i < |words| ==> words[i] != "" && Spaceless(words[i])
    ensures SplitWhitespace(Weave(gaps, words)) == words
  {
    if words == [] {
      SkipsBlank(gaps[0], "");
      assert gaps[0] + "" == gaps[0];
    } else {
      var rest := Weave(gaps[1..], words[1..]);
      WordsRead(gaps[1..], words[1..]);
      assert gaps[0] + words[0] + rest == gaps[0] + (words[0] + rest);
      SkipsBlank(gaps[0], words[0] + rest);
      RestBlank(gaps[1..], words[1..]);
      TakesWord(words[0], rest);
    }
  }

  lemma RestBlank(gaps: seq<string>, words: seq<string>)
    requires |gaps| == |words| + 1 && Blank(gaps[0]) && (words != [] ==> gaps[0] != "")
    ensures var rest := Weave(gaps, words); rest == "" || IsSpace(rest[0])
  {}

  /** A key has the value of the last word that sets it, split at its first equals sign, and is
      not there if no word does. */
  lemma {:induction false} LastSettingWins(words: seq<string>, key: string) returns (k: int)
    ensures -1 <= k < |words| && forall j :: k < j < |words| ==> !Sets(words[j], key)
    ensures if k < 0 then key !in Settings(words)
            else key in Settings(words) && SplitOnce(words[k]) == Some((key, Settings(words)[key]))
  {
    hide SplitOnce;
    if words == [] {
      k := -1;
    } else {
      var n := |words| - 1;
      k := LastSettingWins(words[..n], key);
      assert forall j :: k < j < n ==> words[..n][j] == words[j];
      if Sets(words[n], key) {
        k := n;
      }
    }
  }

  predicate Sets(word: string, key: string) {
    SplitOnce(word).Some? && SplitOnce(word).value.0 == key
  }
}
