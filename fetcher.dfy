/** The two HTTP reads of one refresh attempt (the `Container` document, then the
    `Trash` document) and how their outcome is turned into either a reading or the
    message the attempt fails with. The reads themselves are outside the model:
    their outcome is an input. */
module Fetcher {
  import opened Optional
  import Decimal

  /** The body of the `Container` document: either field may be missing or null. */
  datatype Container = Container(price: Option<real>, weight: Option<real>)

  /** What one attempt's two reads produced. The trash read is only issued once the
      container read has answered with an ok status, so `TrashHttpError` implies
      that the container read succeeded. */
  datatype FetchOutcome =
    | ContainerHttpError(status: nat, statusText: string)  // container read not ok
    | TrashHttpError(status: nat, statusText: string)      // trash read not ok
    | Thrown(message: string)                              // rejected fetch or unparsable body
    | Fetched(container: Option<Container>, trash: Option<int>)  // both bodies parsed; a falsy container body is None

  /** A pair of documents the dashboard accepts. */
  datatype Reading = Reading(container: Container, trash: Option<int>)

  const ContainerFailurePrefix: string := "Failed to fetch container data: "
  const TrashFailurePrefix: string := "Failed to fetch trash data: "
  const NoContainerData: string := "No container data available from the server"

  /** The message of a non-ok read: resource, then status code, a space and the status text. */
  function HttpFailure(prefix: string, status: nat, statusText: string): string {
    prefix + Decimal.NatToString(status) + " " + statusText
  }

  function ContainerFailure(status: nat, statusText: string): string {
    HttpFailure(ContainerFailurePrefix, status, statusText)
  }

  function TrashFailure(status: nat, statusText: string): string {
    HttpFailure(TrashFailurePrefix, status, statusText)
  }

  /** An attempt succeeds exactly when both reads were ok and the container body is present. */
  predicate Succeeds(o: FetchOutcome) {
    o.Fetched? && o.container.Some?
  }

  /** Either the reading an attempt delivers or the message it fails with. */
  function Normalize(o: FetchOutcome): (r: Result<Reading>)
    ensures r.Ok? <==> Succeeds(o)
    ensures r.Ok? ==> r.value == Reading(o.container.value, o.trash)
    ensures o.ContainerHttpError? ==> r == Err(ContainerFailure(o.status, o.statusText))
    ensures o.TrashHttpError? ==> r == Err(TrashFailure(o.status, o.statusText))
    ensures o.Thrown? ==> r == Err(o.message)
    ensures o.Fetched? && o.container.None? ==> r == Err(NoContainerData)
  {
    match o
    case ContainerHttpError(status, text) => Err(ContainerFailure(status, text))
    case TrashHttpError(status, text) => Err(TrashFailure(status, text))
    case Thrown(message) => Err(message)
    case Fetched(container, trash) =>
      if container.None? then Err(NoContainerData) else Ok(Reading(container.value, trash))
  }

  /** The message a failed attempt leaves in `error`, `None` for a successful one. */
  function ErrorOf(o: FetchOutcome): (e: Option<string>)
    ensures e.None? <==> Succeeds(o)
    ensures e.Some? ==> Normalize(o) == Err(e.value)
  {
    match Normalize(o)
    case Ok(_) => None
    case Err(m) => Some(m)
  }

  /** A failure message names its status code and text unambiguously: two
      messages for the same resource are equal only when both parts are. */
  lemma {:induction false} HttpFailureInjective(prefix: string, s1: nat, t1: string, s2: nat, t2: string)
    requires HttpFailure(prefix, s1, t1) == HttpFailure(prefix, s2, t2)
    ensures s1 == s2 && t1 == t2
  {
    var d1, d2 := Decimal.NatToString(s1), Decimal.NatToString(s2);
    var m := HttpFailure(prefix, s1, t1);
    assert m == prefix + (d1 + " " + t1) == prefix + (d2 + " " + t2);
    var rest1, rest2 := d1 + " " + t1, d2 + " " + t2;
    assert rest1 == m[|prefix|..] == rest2;
    assert forall i :: 0 <= i < |d1| ==> rest1[i] != ' ';
    assert forall i :: 0 <= i < |d2| ==> rest2[i] != ' ';
    assert |d1| == |d2| by {
      assert rest1[|d1|] == ' ' && rest2[|d2|] == ' ';
    }
    assert d1 == rest1[..|d1|] == rest2[..|d2|] == d2;
    assert t1 == rest1[|d1| + 1..] == rest2[|d2| + 1..] == t2;
    Decimal.NatToStringInjective(s1, s2);
  }

  /** The three failure causes the attempt itself detects are told apart by their
      messages: the failing resource is always recoverable. */
  lemma FailureCausesDistinct(s1: nat, t1: string, s2: nat, t2: string)
    ensures ContainerFailure(s1, t1) != TrashFailure(s2, t2)
    ensures ContainerFailure(s1, t1) != NoContainerData
    ensures TrashFailure(s2, t2) != NoContainerData
    ensures ContainerFailure(s1, t1) == ContainerFailure(s2, t2) ==> s1 == s2 && t1 == t2
    ensures TrashFailure(s1, t1) == TrashFailure(s2, t2) ==> s1 == s2 && t1 == t2
  {
    var c, t := ContainerFailure(s1, t1), TrashFailure(s2, t2);
    assert c[16] == 'c' && t[16] == 't';
    assert c[0] == 'F' && t[0] == 'F' && NoContainerData[0] == 'N';
    if ContainerFailure(s1, t1) == ContainerFailure(s2, t2) {
      HttpFailureInjective(ContainerFailurePrefix, s1, t1, s2, t2);
    }
    if TrashFailure(s1, t1) == TrashFailure(s2, t2) {
      HttpFailureInjective(TrashFailurePrefix, s1, t1, s2, t2);
    }
  }

  /** Every failure the attempt itself detects leaves a non-empty message. */
  lemma DetectedFailureMessageNonEmpty(o: FetchOutcome)
    requires !Succeeds(o) && !o.Thrown?
    ensures Normalize(o).Err? && |Normalize(o).message| > 0
  {
  }

  /** A 500 on the container read reads "Failed to fetch container data: 500 <text>". */
  lemma ContainerServerErrorMessage(statusText: string)
    ensures ContainerFailure(500, statusText) == "Failed to fetch container data: 500 " + statusText
  {
    assert Decimal.NatToString(5) == "5";
    assert Decimal.NatToString(50) == "50";
    assert Decimal.NatToString(500) == "500";
  }
}
