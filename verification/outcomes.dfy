/**
  Option and error results used where the Python code either returns nothing
  useful or raises.
 */
module Outcomes {

  datatype Option<+T> = None | Some(value: T)

  /** The Python exceptions the modelled code can raise on its own inputs. */
  datatype PyError =
    | ZeroDivisionError   // `x / 0`, `x // 0`, `x % 0`
    | IndexError          // `random.choices` over an empty population
    | ValueError          // a NumPy draw of negative size

  datatype Result<+T> = Ok(value: T) | Err(error: PyError)
}
