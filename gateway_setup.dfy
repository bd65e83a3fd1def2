/**
 * The gateway step of the setup wizard: the port field, its validation,
 * and the guard on going to the next step.
 */
module GatewaySetup {
  import opened Wrappers
  import Text

  const MinPort := 1024
  const MaxPort := 65535

  const InvalidNumber := "请输入有效的端口号"
  const OutOfRange := "端口号需在 1024 - 65535 之间"

  predicate InRange(port: int)
  {
    MinPort <= port <= MaxPort
  }

  /** `handlePortChange`: text that is no number sets the port to 0 with an error; a number is taken, with an error when it is out of range. */
  function PortChange(text: string): (r: (int, Option<string>))
    ensures Text.ParseInt(text).None? ==> r == (0, Some(InvalidNumber))
    ensures Text.ParseInt(text).Some? ==> r.0 == Text.ParseInt(text).value
    ensures r.1.None? <==> InRange(r.0) && Text.ParseInt(text).Some?
    ensures r.1.Some? && Text.ParseInt(text).Some? ==> r.1 == Some(OutOfRange)
  {
    match Text.ParseInt(text)
    case None => (0, Some(InvalidNumber))
    case Some(v) => (v, if v < MinPort || v > MaxPort then Some(OutOfRange) else None)
  }

  /** `handleNext`: the port goes on to the next step only when it is in range; otherwise the range error shows. */
  function Next(port: int): (r: Result<int, string>)
    ensures r.Ok? <==> InRange(port)
    ensures r.Ok? ==> r.value == port
    ensures r.Err? ==> r.error == OutOfRange
  {
    if port < MinPort || port > MaxPort then Err(OutOfRange) else Ok(port)
  }

  /** Typing a port in range, as its digits, sets exactly that port, clears the error, and lets the wizard go on with it. */
  lemma TypedPortAccepted(port: nat)
    requires InRange(port)
    ensures PortChange(Text.NatToString(port)) == (port, None)
    ensures Next(PortChange(Text.NatToString(port)).0) == Ok(port)
  {
    Text.ParseIntDigits(Text.NatToString(port));
  }

  /** The next button is enabled only when the field shows no error, and then the wizard goes on with the typed port. */
  lemma EnabledNextSucceeds(text: string)
    requires PortChange(text).1.None?
    ensures Next(PortChange(text).0) == Ok(PortChange(text).0)
  {
  }
}
