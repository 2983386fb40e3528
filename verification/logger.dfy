/** `Logger`: topic selection and line rendering. The console `print` is
    replaced by returning the line that would be printed, the wall clock by a
    `ClockTime` argument, and the `Any` payload by its already-rendered text. */
module Logger {
  import opened Wrappers
  import opened Topics
  import opened Storage
  import opened TimeFormat

  /** Whether some entry of `topics` has identifier `id`. */
  predicate HasId(topics: seq<TopicMessage>, id: string) {
    exists i :: 0 <= i < |topics| && topics[i].id == id
  }

  /** Whether a front-to-back scan of `topics` finds an entry with
      identifier `id`. */
  function ContainsId(topics: seq<TopicMessage>, id: string): (found: bool)
    ensures found <==> HasId(topics, id)
  {
    if |topics| == 0 then false
    else topics[0].id == id || ContainsId(topics[1..], id)
  }

  /** The same front-to-back scan, written as the loop the Swift library
      runs. */
  method Contains(topics: seq<TopicMessage>, id: string) returns (found: bool)
    ensures found <==> HasId(topics, id)
  {
    var i := 0;
    while i < |topics|
      invariant 0 <= i <= |topics|
      invariant forall j :: 0 <= j < i ==> topics[j].id != id
    {
      if topics[i].id == id {
        return true;
      }
      i := i + 1;
    }
    return false;
  }

  /** The topic a call to `output` renders with, if any. An explicit topic
      is used only when its id is registered (matching by id alone), and then
      it is used as passed; an explicit unregistered topic is dropped with no
      fallback to the default; without an explicit topic the default is used
      as is, registered or not. */
  function Select(s: LoggerStorage, topic: Option<TopicMessage>): (r: Option<TopicMessage>)
    ensures topic.Some? ==> (r.Some? <==> HasId(s.topicMessages, topic.value.id))
    ensures topic.Some? && r.Some? ==> r == topic
    ensures topic.None? ==> r == s.defaultTopicMessage
  {
    match topic
    case Some(t) => if ContainsId(s.topicMessages, t.id) then Some(t) else None
    case None => s.defaultTopicMessage
  }

  /** The separator between the fields of a log line. */
  const Separator: string := "\t\t"

  /** `printOutput`: `<icon> <title>\t\t<HH:mm:ss.SSS>\t\t<payload>`. */
  function Render(topic: TopicMessage, time: ClockTime, payload: string): (line: string)
    ensures |line| == |topic.icon| + |topic.title| + |payload| + HeaderOverhead
    ensures line[..|topic.icon|] == topic.icon
    ensures line[|topic.icon|] == ' '
    ensures line[|topic.icon| + 1..|topic.icon| + 1 + |topic.title|] == topic.title
    ensures line[|topic.icon| + 1 + |topic.title|..TimeStart(topic)] == "\t\t"
    ensures line[TimeStart(topic)..TimeStart(topic) + TimestampLength] == FormatTime(time)
    ensures line[TimeStart(topic) + TimestampLength..HeaderLength(topic)] == "\t\t"
    ensures line[HeaderLength(topic)..] == payload
  {
    topic.icon + " " + topic.title + Separator + FormatTime(time) + Separator + payload
  }

  /** Characters a line adds beyond icon, title and payload: the space, two
      separators and the timestamp. */
  const HeaderOverhead: nat := 1 + |Separator| + TimestampLength + |Separator|

  /** Index of the timestamp within a line rendered for `topic`. */
  function TimeStart(topic: TopicMessage): nat {
    |topic.icon| + 1 + |topic.title| + |Separator|
  }

  /** Index of the payload within a line rendered for `topic`. */
  function HeaderLength(topic: TopicMessage): nat {
    |topic.icon| + |topic.title| + HeaderOverhead
  }

  /** Whether `line` starts with the parts of a header for `topic` that do
      not depend on the time: icon, space, title and both separators. */
  predicate HasHeaderFrame(topic: TopicMessage, line: string)
    requires |line| >= HeaderLength(topic)
  {
    && line[..|topic.icon|] == topic.icon
    && line[|topic.icon|] == ' '
    && line[|topic.icon| + 1..|topic.icon| + 1 + |topic.title|] == topic.title
    && line[|topic.icon| + 1 + |topic.title|..TimeStart(topic)] == Separator
    && line[TimeStart(topic) + TimestampLength..HeaderLength(topic)] == Separator
  }

  /** Reads the time and payload back out of a line rendered for `topic`;
      `None` when the line is not laid out as `Render` lays it out. */
  function Unrender(topic: TopicMessage, line: string): (r: Option<(ClockTime, string)>)
    ensures r.Some? ==> |line| >= HeaderLength(topic) && HasHeaderFrame(topic, line)
  {
    if |line| < HeaderLength(topic) || !HasHeaderFrame(topic, line) then None
    else
      match ParseTime(line[TimeStart(topic)..TimeStart(topic) + TimestampLength])
      case None => None
      case Some(t) => Some((t, line[HeaderLength(topic)..]))
  }

  /** A rendered line gives back the time and payload it was rendered from. */
  lemma RenderUnrender(topic: TopicMessage, time: ClockTime, payload: string)
    ensures Unrender(topic, Render(topic, time, payload)) == Some((time, payload))
  {
    FormatParse(time);
  }

  /** Every line `Unrender` accepts is exactly the rendering of what it reads
      back, so `Render` and `Unrender` are inverse in both directions. */
  lemma UnrenderRender(topic: TopicMessage, line: string, time: ClockTime, payload: string)
    requires Unrender(topic, line) == Some((time, payload))
    ensures line == Render(topic, time, payload)
  {
    var a := |topic.icon|;
    var b := a + 1 + |topic.title|;
    var c := TimeStart(topic);
    var d := c + TimestampLength;
    var e := HeaderLength(topic);
    ParseFormat(line[c..d], time);
    assert line[a..a + 1] == " ";
    assert line[..e] == line[..a] + line[a..a + 1] + line[a + 1..b] + line[b..c] + line[c..d] + line[d..e];
    assert line == line[..e] + line[e..];
  }

  /** Two lines for the same topic are equal only if their times and
      payloads are. */
  lemma RenderInjective(topic: TopicMessage, t1: ClockTime, p1: string, t2: ClockTime, p2: string)
    requires Render(topic, t1, p1) == Render(topic, t2, p2)
    ensures t1 == t2 && p1 == p2
  {
    RenderUnrender(topic, t1, p1);
    RenderUnrender(topic, t2, p2);
  }

  /** `Logger.output`: the line it would print, if any, and the storage
      afterwards, which is the storage before. The line is the rendering of
      the topic `Select` picks. */
  method Output(s: LoggerStorage, payload: string, topic: Option<TopicMessage>, time: ClockTime)
    returns (line: Option<string>, s': LoggerStorage)
    ensures s' == s
    ensures line.Some? <==> (if topic.Some? then HasId(s.topicMessages, topic.value.id) else s.defaultTopicMessage.Some?)
    ensures topic.Some? && line.Some? ==> line.value == Render(topic.value, time, payload)
    ensures topic.None? && line.Some? ==> line.value == Render(s.defaultTopicMessage.value, time, payload)
    ensures line == (match Select(s, topic) case None => None case Some(t) => Some(Render(t, time, payload)))
  {
    s' := s;
    if topic.Some? {
      var registered := Contains(s.topicMessages, topic.value.id);
      if !registered {
        return None, s';
      }
      line := Some(Render(topic.value, time, payload));
    } else if s.defaultTopicMessage.Some? {
      line := Some(Render(s.defaultTopicMessage.value, time, payload));
    } else {
      line := None;
    }
  }

  /** Before any setup nothing is emitted, with or without an explicit topic. */
  lemma InitialEmitsNothing(topic: Option<TopicMessage>)
    ensures Select(Initial, topic) == None
  {
  }

  /** An explicit topic whose id is not registered is dropped even when a
      default is configured. */
  lemma UnregisteredNoFallback(s: LoggerStorage, topic: TopicMessage)
    requires s.defaultTopicMessage.Some?
    requires forall i :: 0 <= i < |s.topicMessages| ==> s.topicMessages[i].id != topic.id
    ensures Select(s, Some(topic)) == None
  {
  }

  /** A registered id selects the passed topic, whose own icon and title are
      rendered even when the registered entry with that id differs. */
  lemma PassedTopicWins(s: LoggerStorage, topic: TopicMessage, k: nat)
    requires k < |s.topicMessages| && s.topicMessages[k].id == topic.id
    ensures Select(s, Some(topic)) == Some(topic)
  {
  }

  /** Without an explicit topic the default is rendered, whether or not it is
      registered; without a default nothing is. */
  lemma DefaultUsed(s: LoggerStorage)
    ensures s.defaultTopicMessage.Some? ==> Select(s, None) == s.defaultTopicMessage
    ensures s.defaultTopicMessage.None? ==> Select(s, None) == None
  {
  }

  /** Selection depends on the registered ids only, not on the titles or
      icons registered with them. */
  lemma SelectByIdOnly(s1: LoggerStorage, s2: LoggerStorage, topic: TopicMessage)
    requires |s1.topicMessages| == |s2.topicMessages|
    requires forall i :: 0 <= i < |s1.topicMessages| ==> s1.topicMessages[i].id == s2.topicMessages[i].id
    ensures Select(s1, Some(topic)) == Select(s2, Some(topic))
  {
    if HasId(s1.topicMessages, topic.id) {
      var i :| 0 <= i < |s1.topicMessages| && s1.topicMessages[i].id == topic.id;
      assert s2.topicMessages[i].id == topic.id;
    }
  }
}
