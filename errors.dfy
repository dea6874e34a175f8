/** The failures the core reports; each names the Python exception it stands for. */
module Errors {

  datatype Error =
    | InvalidGaugeSpecification(spec: string)      // ValueError from int() on a gauge string
    | UnknownTemperatureRating(tempC: int)         // KeyError: rating not in the known list
    | MissingColumn(name: string)                  // KeyError: frame[name] with no such column
    | NoAcceptableGauge                            // ValueError: no tabulated gauge is adequate
    | NoColumnNumber(column: string)               // AttributeError: header without a digit run
    | NoTableForCircuit(voltage: int, dropPc: int) // KeyError: no Table IX for this key
    | UnknownLength(lengthFt: int)                 // KeyError: length is not tabulated
    | LengthOutOfRange                             // request longer than the longest bucket
    | NoNumberedColumn(number: int)                // KeyError: no header carries this number
}
