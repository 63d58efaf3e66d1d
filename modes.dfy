/** Selection of the pipeline from the integer `MODE.mode` of the
    configuration file: 0, 1 and 2 run one pipeline each, any other value
    stops the program with an error. */
module Modes {
  import opened Wrappers

  datatype Mode = RadiationMode | SyntheticMode | CloudsMode

  /** The message of the exception raised for an unknown mode, as written
      (it numbers the modes from 1 while the codes start at 0). */
  const UnknownModeMessage: string := "MODES: (1) radiation (2) synthetic (3) clouds"

  /** The code that selects each mode. */
  function Code(m: Mode): int {
    match m
    case RadiationMode => 0
    case SyntheticMode => 1
    case CloudsMode => 2
  }

  /** The if / elif chain on the mode code. */
  function SelectMode(code: int): (r: Result<Mode, string>)
    ensures r.Success? <==> 0 <= code <= 2
    ensures r.Failure? ==> r.error == UnknownModeMessage
  {
    if code == 0 then Success(RadiationMode)
    else if code == 1 then Success(SyntheticMode)
    else if code == 2 then Success(CloudsMode)
    else Failure(UnknownModeMessage)
  }

  /** The line each mode prints before it starts. */
  function Banner(m: Mode): string {
    match m
    case RadiationMode => "PHOTOIONISATION + RADIATIVE HEATING & COOLING mode"
    case SyntheticMode => "SYNTHETIC OBSERVABLES mode"
    case CloudsMode => "CLOUDS mode"
  }

  /** Every mode is selected by its own code. */
  lemma SelectModeOfCode(m: Mode)
    ensures SelectMode(Code(m)) == Success(m)
  {
  }

  /** A code that is accepted selects exactly the mode that has it, so two
      different accepted codes never run the same branch. */
  lemma CodeOfSelectMode(code: int)
    requires SelectMode(code).Success?
    ensures Code(SelectMode(code).value) == code
  {
  }
}
