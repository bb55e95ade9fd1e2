/** The per-application manifest `RukuConfig` and the validation rules
    attached to its fields. */
module Manifest {
  import opened Basics

  /** Rust's `u16`. */
  newtype u16 = x: int | 0 <= x < 0x1_0000

  datatype RukuConfig = RukuConfig(port: u16, version: Option<string>)

  /** One failed rule: the field it is attached to and the error code. */
  datatype FieldError = FieldError(field: string, code: string)

  const PortInUse: string := "port is already in use"

  /** The `range(min = 1024, max = 65535)` rule; on a `u16` only the lower
      bound can fail. */
  function PortInRange(port: u16): (ok: bool)
    ensures ok <==> port >= 1024
  {
    1024 <= port as int <= 65535
  }

  /** `validate_port`, with the operating system's bind probe `is_free`
      passed in as `isFree`. */
  function ValidatePort(port: u16, isFree: u16 -> bool): (r: Result<(), string>)
    ensures r.Err? <==> !isFree(port)
    ensures r.Err? ==> r.error == PortInUse
  {
    if !isFree(port) then Err(PortInUse) else Ok(())
  }

  /** The `length(min = 1, max = 20)` rule, counted in characters. */
  predicate VersionLengthOk(v: string)
  {
    1 <= |v| <= 20
  }

  /** `RukuConfig::validate`: every rule is checked and every failure is
      reported, port rules first, in the order they are declared. */
  function Validate(c: RukuConfig, isFree: u16 -> bool): (r: Result<(), seq<FieldError>>)
    ensures r.Ok? <==>
      c.port >= 1024 && isFree(c.port) && (c.version.Some? ==> 1 <= |c.version.value| <= 20)
    ensures r.Err? ==> 1 <= |r.error| <= 3
    ensures r.Err? ==> (FieldError("port", "range") in r.error <==> c.port < 1024)
    ensures r.Err? ==> (FieldError("port", PortInUse) in r.error <==> !isFree(c.port))
    ensures r.Err? ==>
      (FieldError("version", "length") in r.error <==>
         c.version.Some? && (|c.version.value| == 0 || |c.version.value| > 20))
    ensures r.Err? ==> forall e :: e in r.error ==>
      e == FieldError("port", "range") || e == FieldError("port", PortInUse)
      || e == FieldError("version", "length")
    ensures r.Err? ==> forall a, b :: 0 <= a < b < |r.error| ==> r.error[a] != r.error[b]
  {
    var portRange := if PortInRange(c.port) then [] else [FieldError("port", "range")];
    var portFree := match ValidatePort(c.port, isFree)
      case Ok(_) => []
      case Err(code) => [FieldError("port", code)];
    var versionLength := match c.version
      case None => []
      case Some(v) => if VersionLengthOk(v) then [] else [FieldError("version", "length")];
    var errors := portRange + portFree + versionLength;
    if errors == [] then Ok(()) else Err(errors)
  }

  /** An empty version string is rejected even when the port is fine. */
  lemma EmptyVersionRejected(port: u16, isFree: u16 -> bool)
    ensures Validate(RukuConfig(port, Some("")), isFree).Err?
  {
  }

  /** A port below 1024 is rejected whatever else the manifest says. */
  lemma LowPortRejected(c: RukuConfig, isFree: u16 -> bool)
    requires c.port < 1024
    ensures Validate(c, isFree).Err?
    ensures FieldError("port", "range") in Validate(c, isFree).error
  {
  }
}
