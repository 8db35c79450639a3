/**
 * The exceptions the image container raises. The first four are the
 * container's own `assert` statements failing (Python's AssertionError);
 * the case says which assertion fired. IndexError is raised by `data[i]`
 * on an input that has no element i.
 */
module Errors {
  datatype Error =
    | BadDataType(dataType: string)   // `data_type` is not one of the four encodings
    | BadDataName(name: string)       // `clear_bg`: a name other than "amplitude" or "phase"
    | BadBgKey(key: string)           // `clear_bg`: a key other than "ramp" or "data"
    | NoDataName                      // `clear_bg`: no field selected
    | IndexError(index: nat)          // `data[index]` of a pair encoding does not exist
}
