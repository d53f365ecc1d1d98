/** The older queue section and its check that no field is empty. */
module LegacyQueue {
  import opened Wrappers

  datatype QueueConfig = QueueConfig(
    endpoint: string,
    exchangeName: string,
    username: string,
    password: string)

  datatype QueueError = EmptyEndpoint | EmptyExchangeName | EmptyUsername | EmptyPassword

  /** The fields in the order they are checked, with the error each one gives. */
  function Fields(q: QueueConfig): seq<(string, QueueError)> {
    [ (q.endpoint, EmptyEndpoint),
      (q.exchangeName, EmptyExchangeName),
      (q.username, EmptyUsername),
      (q.password, EmptyPassword) ]
  }

  /** `QueueConfig::validate`: passes exactly when every field is non-empty
      (whitespace counts as content); otherwise names the first empty field. */
  function Validate(q: QueueConfig): (r: Outcome<QueueError>)
    ensures r.Pass? <==> forall i :: 0 <= i < |Fields(q)| ==> Fields(q)[i].0 != []
    ensures forall i :: (0 <= i < |Fields(q)| && Fields(q)[i].0 == [] &&
      forall k :: 0 <= k < i ==> Fields(q)[k].0 != []) ==> r == Fail(Fields(q)[i].1)
  {
    var fs := Fields(q);
    assert |fs| == 4 && fs[0].0 == q.endpoint && fs[1].0 == q.exchangeName;
    assert fs[2].0 == q.username && fs[3].0 == q.password;
    if q.endpoint == [] then Fail(EmptyEndpoint)
    else if q.exchangeName == [] then Fail(EmptyExchangeName)
    else if q.username == [] then Fail(EmptyUsername)
    else if q.password == [] then Fail(EmptyPassword)
    else Pass
  }
}
