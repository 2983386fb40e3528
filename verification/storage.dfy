/** The process-wide logger configuration, as an immutable record. The Swift
    code keeps one mutable instance in a static property; here each state is
    a value and `Setup` computes the next one. */
module Storage {
  import opened Wrappers
  import opened Topics

  datatype LoggerStorage = LoggerStorage(
    topicMessages: seq<TopicMessage>,
    defaultTopicMessage: Option<TopicMessage>
  )

  /** The state before any setup: no registered topics and no default. */
  const Initial: LoggerStorage := LoggerStorage([], None)

  /** `Logger.setup`: both fields are overwritten; nothing of the previous
      state survives, and a missing default clears any earlier one. */
  function Setup(s: LoggerStorage, topics: seq<TopicMessage>, default: Option<TopicMessage>): (s': LoggerStorage)
    ensures s'.topicMessages == topics
    ensures s'.defaultTopicMessage == default
  {
    s.(topicMessages := topics, defaultTopicMessage := default)
  }

  /** The state after a setup does not depend on the state before it. */
  lemma SetupForgetsPrevious(s1: LoggerStorage, s2: LoggerStorage, topics: seq<TopicMessage>, default: Option<TopicMessage>)
    ensures Setup(s1, topics, default) == Setup(s2, topics, default)
  {
  }

  /** Two setups in a row leave exactly what the second one wrote. */
  lemma SetupLastWins(s: LoggerStorage, t1: seq<TopicMessage>, d1: Option<TopicMessage>, t2: seq<TopicMessage>, d2: Option<TopicMessage>)
    ensures Setup(Setup(s, t1, d1), t2, d2) == Setup(s, t2, d2)
    ensures Setup(Setup(s, t1, d1), t1, d1) == Setup(s, t1, d1)
  {
  }
}
