/** The `--to` value of `point`: `<host>:<port>`, split on the colon. The
    split is checked before the subject is sanitized and the port is parsed
    after it, so the two halves are separate functions. */
module Destination {
  import opened Results
  import opened GoStrings
  import opened GoStrconv

  /** The two pieces of `--to`, both kept as written: `splitTo[0]` becomes the
      endpoint address and `splitTo[1]` the port name. */
  datatype Target = Target(host: string, portName: string)

  datatype DestinationError = MalformedDestination(to: string)

  /** `strings.Split(to, ":")` must give exactly two pieces. */
  function SplitDestination(to: string): (r: Result<Target, DestinationError>)
    ensures r.Ok? <==> Count(to, ':') == 1
    ensures r.Err? ==> r.error == MalformedDestination(to)
    ensures r.Ok? ==> ':' !in r.value.host && ':' !in r.value.portName
  {
    var pieces := Split(to, ':');
    if |pieces| != 2 then Err(MalformedDestination(to))
    else Ok(Target(pieces[0], pieces[1]))
  }

  /** An accepted destination is its host, a colon and its port name, so
      nothing of `--to` is dropped or altered. */
  lemma SplitDestinationRoundTrip(to: string)
    requires SplitDestination(to).Ok?
    ensures SplitDestination(to).value.host + ":" + SplitDestination(to).value.portName == to
  {
    var pieces := Split(to, ':');
    JoinSplit(to, ':');
    assert pieces[1..] == [pieces[1]];
  }

  /** Conversely every colon-free host and port name are recovered from their
      join, even empty ones: nothing checks that either piece is non-empty. */
  lemma SplitDestinationOfJoin(host: string, portName: string)
    requires ':' !in host && ':' !in portName
    ensures SplitDestination(host + ":" + portName) == Ok(Target(host, portName))
  {
    var parts := [host, portName];
    SplitJoin(parts, ':');
    assert Join(parts, ':') == host + ":" + portName by {
      assert parts[1..] == [portName];
    }
  }
  /** A `--to` without a colon, such as a bare address or host name, is
      rejected: the port is not optional. */
  lemma ColonFreeDestinationRejected(to: string)
    requires ':' !in to
    ensures SplitDestination(to) == Err(MalformedDestination(to))
  {
  }


  /** `int32(strconv.Atoi(splitTo[1]))`: a syntax or 64-bit range failure is
      an error, and any other value is wrapped to 32 bits with no check that
      it is a valid port. */
  function ParsePort(portName: string): (r: Result<int32, NumError>)
    ensures r.Ok? <==> Atoi(portName).Ok?
    ensures r.Err? ==> r.error == Atoi(portName).error
    ensures r.Ok? ==> (r.value as int - Atoi(portName).value) % 0x1_0000_0000 == 0
  {
    var p :- Atoi(portName);
    Ok(WrapInt32(p))
  }

  /** Every `int32`, however it is written by `strconv.Itoa`, parses back to
      itself; so negative numbers and numbers above 65535 are accepted. */
  lemma ParsePortFormat(port: int32)
    ensures ParsePort(FormatInt(port as int)) == Ok(port)
  {
    AtoiFormatInt(port as int);
  }

  /** Numbers beyond 32 bits wrap around rather than fail. */
  lemma ParsePortWraps(n: int)
    requires 0x8000_0000 <= n <= MaxInt64
    ensures ParsePort(FormatInt(n)) == Ok(WrapInt32(n))
    ensures ParsePort(FormatInt(n)).value as int != n
  {
    AtoiFormatInt(n);
  }
}
