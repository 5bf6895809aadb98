/** Vocabulary shared by the gateway and client models: the message fields of MQTT-SN v1.2 that the
    session logic branches on. Framing and codecs are not modelled. */
module Protocol {

  datatype Option<+T> = None | Some(value: T)

  datatype Qos = AtMostOnce | AtLeastOnce | ExactlyOnce

  /** Type of the topic id field of a PUBLISH. */
  datatype TopicIdKind = Normal | Predefined | ShortName

  datatype ConnStatus = Disconnected | Connected | Asleep

  datatype ReturnCode = Accepted | Congestion | InvalidTopicId | NotSupported

  /** Message, packet and topic ids are 16 bits wide. */
  const ID_SPACE: nat := 0x1_0000

  /** The numbers in `s` go strictly up. */
  ghost predicate Increasing(s: seq<nat>) {
    forall i, j :: 0 <= i < j < |s| ==> s[i] < s[j]
  }
}
