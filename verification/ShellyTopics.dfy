/** Recognising a Shelly 1 by the topics it publishes to, and printing the topic of its commands. */
module ShellyTopics {
  import opened Runs

  const SLASH := "/"
  const ROOT := "shellies"
  const MARK := "shelly1-"

  predicate StartsAt(s: string, sep: string, i: nat) {
    i + |sep| <= |s| && s[i..i + |sep|] == sep
  }

  ghost predicate Contains(s: string, sep: string) {
    exists i: nat :: StartsAt(s, sep, i)
  }

  predicate HasPrefix(s: string, prefix: string) {
    StartsAt(s, prefix, 0)
  }

  predicate HasSuffix(s: string, suffix: string) {
    |suffix| <= |s| && StartsAt(s, suffix, |s| - |suffix|)
  }

  /** The first occurrence of sep at or after i. */
  function IndexFrom(s: string, sep: string, i: nat): (r: Option<nat>)
    ensures r.Some? ==> i <= r.value && StartsAt(s, sep, r.value)
    ensures forall j: nat :: i <= j && (r.Some? ==> j < r.value) ==> !StartsAt(s, sep, j)
    decreases |s| - i
  {
    if i + |sep| > |s| then None
    else if StartsAt(s, sep, i) then Some(i)
    else IndexFrom(s, sep, i + 1)
  }

  /** strings.Split for a separator that is not empty: cut at each leftmost occurrence. */
  function Split(s: string, sep: string): (parts: seq<string>)
    requires sep != []
    ensures parts != []
  {
    match IndexFrom(s, sep, 0)
    case None => [s]
    case Some(i) => [s[..i]] + Split(s[i + |sep|..], sep)
  }

  function Join(parts: seq<string>, sep: string): string
    requires parts != []
  {
    if |parts| == 1 then parts[0] else parts[0] + sep + Join(parts[1..], sep)
  }

  /** Splitting loses nothing, and no part holds the separator. */
  lemma {:induction false} SplitJoins(s: string, sep: string)
    requires sep != []
    ensures Join(Split(s, sep), sep) == s
    ensures forall part <- Split(s, sep) :: !Contains(part, sep)
    decreases |s|
  {
    match IndexFrom(s, sep, 0)
    case None =>
    case Some(i) =>
      SplitJoins(s[i + |sep|..], sep);
      assert s == s[..i] + sep + s[i + |sep|..];
      forall j: nat | j + |sep| <= i ensures !StartsAt(s[..i], sep, j) {
        assert !StartsAt(s, sep, j);
        assert s[..i][j..j + |sep|] == s[j..j + |sep|];
      }
  }

  datatype Detected = Detected(mqttID: string)

  /** detectDevice. */
  function DetectDevice(topic: string): Option<Detected> {
    if HasPrefix(topic, ROOT + SLASH + MARK) && (HasSuffix(topic, "/relay/0") || HasSuffix(topic, "/input/0")) then
      var segments := Split(topic, SLASH);
      HasSegments(topic);
      Some(Detected(segments[0] + SLASH + segments[1]))
    else
      None
  }

  /** newNetShelliesShelly1: the id of the device, None for its two errors. */
  function NewShelly(topic: string): Option<string> {
    var segments := Split(topic, SLASH);
    if |segments| < 2 then None
    else
      var idSegments := Split(segments[1], MARK);
      if |idSegments| != 2 then None else Some(idSegments[1])
  }

  datatype RelayState = On | Off

  datatype Publication = Publication(topic: string, payload: string)

  class NetShelly {
    const shellyMQTTID: string
    var relayState: RelayState

    constructor (shellyMQTTID: string)
      ensures this.shellyMQTTID == shellyMQTTID && relayState == Off
    {
      this.shellyMQTTID, relayState := shellyMQTTID, Off;
    }

    /** The new state is kept and published; the relay of the device is told by its command topic. */
    method SetRelayState(isEnabled: bool) returns (p: Publication)
      modifies this
      ensures relayState.On? == isEnabled
      ensures p == Publication(CommandTopic(shellyMQTTID), if isEnabled then "on" else "off")
    {
      relayState := if isEnabled then On else Off;
      p := Publication("shellies/shelly1-" + shellyMQTTID + "/relay/0/command", if relayState.On? then "on" else "off");
    }
  }

  /** The topic of the commands for a device. */
  function CommandTopic(id: string): string {
    "shellies/shelly1-" + id + "/relay/0/command"
  }

  function Before(s: string): string {
    match IndexFrom(s, SLASH, 0)
    case None => s
    case Some(i) => s[..i]
  }

  /** A topic below the prefix of the shellies: its second segment is the mark and an id part. */
  lemma Segments(rest: string)
    ensures var segments := Split(ROOT + SLASH + MARK + rest, SLASH);
      |segments| >= 2 && segments[0] == ROOT && segments[1] == MARK + Before(rest)
  {
    var topic := ROOT + SLASH + MARK + rest;
    SplitAt(ROOT, SLASH, MARK + rest);
    assert topic == ROOT + SLASH + (MARK + rest);
    BeforeMark(rest);
  }

  lemma HasSegments(topic: string)
    requires HasPrefix(topic, ROOT + SLASH + MARK)
    ensures |Split(topic, SLASH)| >= 2
  {
    Segments(topic[|ROOT + SLASH + MARK|..]);
    assert topic == ROOT + SLASH + MARK + topic[|ROOT + SLASH + MARK|..];
  }

  /** Cutting behind a head in which the separator cannot begin. */
  lemma SplitAt(head: string, sep: string, tail: string)
    requires sep != [] && sep[0] !in head
    ensures Split(head + sep + tail, sep) == [head] + Split(tail, sep)
  {
    var s := head + sep + tail;
    assert StartsAt(s, sep, |head|);
    forall j: nat | j < |head| ensures !StartsAt(s, sep, j) {
      assert head[j] in head && s[j..j + |sep|][0] == head[j];
    }
    assert IndexFrom(s, sep, 0) == Some(|head|);
    assert s[..|head|] == head && s[|head| + |sep|..] == tail;
  }

  lemma SlashAt(s: string, j: nat)
    ensures StartsAt(s, SLASH, j) <==> j < |s| && s[j] == '/'
  {
    if j < |s| {
      assert s[j..j + 1] == [s[j]];
    }
  }

  lemma BeforeMark(rest: string)
    ensures Split(MARK + rest, SLASH)[0] == MARK + Before(rest)
  {
    var s := MARK + rest;
    forall j: nat ensures StartsAt(s, SLASH, j) <==> j >= |MARK| && StartsAt(rest, SLASH, j - |MARK|) {
      SlashAt(s, j);
      if j >= |MARK| {
        SlashAt(rest, j - |MARK|);
      }
    }
    match IndexFrom(rest, SLASH, 0)
    case None =>
      assert IndexFrom(s, SLASH, 0) == None;
    case Some(i) =>
      assert StartsAt(s, SLASH, i + |MARK|);
      assert IndexFrom(s, SLASH, 0) == Some(i + |MARK|);
      assert s[..i + |MARK|] == MARK + rest[..i];
  }

  /** What is accepted of a segment that starts with the mark: an id without the mark, and all of
      it. */
  lemma {:induction false} MarkedSegment(id: string)
    ensures |Split(MARK + id, MARK)| == 2 <==> !Contains(id, MARK)
    ensures !Contains(id, MARK) ==> Split(MARK + id, MARK)[1] == id
  {
    SplitAt("", MARK, id);
    assert "" + MARK + id == MARK + id;
    if Contains(id, MARK) {
      var i: nat :| StartsAt(id, MARK, i);
      assert IndexFrom(id, MARK, 0).Some?;
    }
  }

  /** For a detected topic the device is created exactly when the id part does not hold the mark
      again, and then its commands go to the detected device. */
  lemma CommandsReachDetectedDevice(topic: string)
    requires DetectDevice(topic).Some?
    ensures var id := Before(topic[|ROOT + SLASH + MARK|..]);
      && (NewShelly(topic).Some? <==> !Contains(id, MARK))
      && DetectDevice(topic).value.mqttID == ROOT + SLASH + MARK + id
    ensures NewShelly(topic).Some? ==>
      CommandTopic(NewShelly(topic).value) == DetectDevice(topic).value.mqttID + "/relay/0/command"
  {
    var rest := topic[|ROOT + SLASH + MARK|..];
    assert topic == ROOT + SLASH + MARK + rest;
    Segments(rest);
    MarkedSegment(Before(rest));
    PrintedTopic(Before(rest));
  }

  lemma PrintedTopic(id: string)
    ensures ROOT + SLASH + (MARK + id) == ROOT + SLASH + MARK + id
    ensures CommandTopic(id) == ROOT + SLASH + MARK + id + "/relay/0/command"
  {
    assert ROOT + SLASH + MARK == "shellies/shelly1-";
  }

  function RelayTopic(id: string): string {
    ROOT + SLASH + MARK + id + "/relay/0"
  }

  function InputTopic(id: string): string {
    ROOT + SLASH + MARK + id + "/input/0"
  }

  lemma {:induction false} IsDetected(id: string)
    ensures DetectDevice(RelayTopic(id)).Some? && DetectDevice(InputTopic(id)).Some?
  {
    assert RelayTopic(id)[0..17] == ROOT + SLASH + MARK == InputTopic(id)[0..17];
    assert RelayTopic(id)[|RelayTopic(id)| - 8..] == "/relay/0";
    assert InputTopic(id)[|InputTopic(id)| - 8..] == "/input/0";
  }

  /** Exactly the relay and input topics of some id are detected; nothing else is. */
  lemma DetectedExactly(topic: string)
    ensures DetectDevice(topic).Some? <==> exists id :: topic == RelayTopic(id) || topic == InputTopic(id)
  {
    if DetectDevice(topic).Some? {
      assert topic[..17] == "shellies/shelly1-" == ROOT + SLASH + MARK by {
        assert StartsAt(topic, ROOT + SLASH + MARK, 0);
      }
      SlashesApart(topic);
      var id := topic[17..|topic| - 8];
      assert topic == topic[..17] + id + topic[|topic| - 8..];
      if HasSuffix(topic, "/relay/0") {
        assert topic == RelayTopic(id);
      } else {
        assert topic == InputTopic(id);
      }
    } else {
      forall id ensures !(topic == RelayTopic(id) || topic == InputTopic(id)) {
        IsDetected(id);
      }
    }
  }

  /** The prefix ends before the suffix begins. */
  lemma SlashesApart(topic: string)
    requires HasPrefix(topic, ROOT + SLASH + MARK)
    requires HasSuffix(topic, "/relay/0") || HasSuffix(topic, "/input/0")
    ensures |topic| >= 25
  {
    var s := |topic| - 8;
    assert ROOT + SLASH + MARK == "shellies/shelly1-";
    assert topic[0..17] == "shellies/shelly1-";
    assert topic[s..s + 8] == "/relay/0" || topic[s..s + 8] == "/input/0";
    assert topic[s] == topic[s..s + 8][0] == '/' && topic[s + 6] == topic[s..s + 8][6] == '/';
    forall k | 0 <= k < 17 ensures topic[k] == "shellies/shelly1-"[k] {
      assert topic[0..17][k] == topic[k];
    }
  }

  /** Commands go below the relay topic, whatever the id. */
  lemma CommandsGoBelowRelay(id: string)
    ensures CommandTopic(id) == RelayTopic(id) + "/command"
  {
    assert "/relay/0/command" == "/relay/0" + "/command";
    PrintedTopic(id);
  }

  /** The id of a device comes back from its topics exactly when it holds neither a slash nor the
      mark; every other id is refused or cut at its first slash. */
  lemma IDComesBack(id: string)
    ensures NewShelly(RelayTopic(id)) == Some(id) <==> '/' !in id && !Contains(id, MARK)
    ensures NewShelly(InputTopic(id)) == Some(id) <==> '/' !in id && !Contains(id, MARK)
    ensures NewShelly(RelayTopic(id)) == NewShelly(InputTopic(id))
      == if Contains(Before(id), MARK) then None else Some(Before(id))
  {
    BeforeSuffix(id, "/relay/0");
    BeforeSuffix(id, "/input/0");
    BeforeCuts(id);
    assert RelayTopic(id) == ROOT + SLASH + MARK + (id + "/relay/0");
    assert InputTopic(id) == ROOT + SLASH + MARK + (id + "/input/0");
    Segments(id + "/relay/0");
    Segments(id + "/input/0");
    MarkedSegment(Before(id));
  }

  lemma BeforeSuffix(id: string, suffix: string)
    requires HasPrefix(suffix, SLASH)
    ensures Before(id + suffix) == Before(id)
  {
    var s := id + suffix;
    assert suffix[0..1][0] == '/';
    forall j: nat | j < |id| ensures StartsAt(s, SLASH, j) <==> StartsAt(id, SLASH, j) {
      assert s[j..j + 1] == id[j..j + 1];
    }
    match IndexFrom(id, SLASH, 0)
    case None =>
      assert s[|id|..|id| + 1] == SLASH;
      assert StartsAt(s, SLASH, |id|);
      assert IndexFrom(s, SLASH, 0) == Some(|id|);
    case Some(i) =>
      assert IndexFrom(s, SLASH, 0) == Some(i);
  }

  lemma BeforeCuts(id: string)
    ensures Before(id) == id <==> '/' !in id
  {
    match IndexFrom(id, SLASH, 0)
    case None =>
      forall k | 0 <= k < |id| ensures id[k] != '/' {
        SlashAt(id, k);
      }
    case Some(i) =>
      SlashAt(id, i);
  }
}
