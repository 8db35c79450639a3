/**
 * Decoding of the experimental input into an amplitude and a phase image
 * (`QPImage._get_amp_pha`). The numerical routines it calls are foreign
 * (numpy, scikit-image) and are kept uninterpreted: they are the fields of
 * an `Ops` record, so every statement below holds whatever they compute.
 */
module Decoding {
  import opened Wrappers
  import opened Errors

  /** The numerical collaborators of the decoder, over an abstract array type A. */
  datatype Ops<!A> = Ops(
    abs: A -> A,                  // magnitude, np.abs
    angle: A -> A,                // argument, np.angle
    unwrap: A -> A,               // phase unwrapping, unwrap_phase
    sqrt: A -> A,                 // np.sqrt
    onesLike: A -> A,             // np.ones_like
    item: (A, nat) -> Option<A>)  // data[i]; None where indexing raises IndexError

  /** A decoded pair: the amplitude image and the (unwrapped) phase image. */
  datatype AmpPha<A> = AmpPha(amp: A, pha: A)

  const FieldTag: string := "field"
  const PhaseTag: string := "phase"
  const PhaseAmplitudeTag: string := "phase,amplitude"
  const PhaseIntensityTag: string := "phase,intensity"

  /** The encodings the decoder accepts, in the order the source lists them. */
  const DataTypes: seq<string> := [FieldTag, PhaseTag, PhaseAmplitudeTag, PhaseIntensityTag]

  /** The two encodings whose input is an indexable pair (phase first). */
  predicate IsPairTag(dataType: string) {
    dataType == PhaseAmplitudeTag || dataType == PhaseIntensityTag
  }

  /**
   * Decode `data` under the encoding tag `dataType`. An unknown tag fails
   * the assertion; a pair encoding whose input lacks element 0 or 1 raises
   * IndexError; every other input decodes.
   */
  function GetAmpPha<A>(num: Ops<A>, data: A, dataType: string): (r: Result<AmpPha<A>, Error>)
    ensures dataType !in DataTypes <==> r == Failure(BadDataType(dataType))
    ensures r.Success? <==>
      dataType in DataTypes && (IsPairTag(dataType) ==> num.item(data, 0).Some? && num.item(data, 1).Some?)
    ensures r.Failure? && dataType in DataTypes ==>
      r.error == IndexError(if num.item(data, 0).None? then 0 else 1)
    ensures r.Success? && dataType == FieldTag ==>
      r.value == AmpPha(num.abs(data), num.unwrap(num.angle(data)))
    ensures r.Success? && dataType == PhaseTag ==>
      r.value == AmpPha(num.onesLike(data), num.unwrap(data))
    ensures r.Success? && IsPairTag(dataType) ==> r.value.pha == num.unwrap(num.item(data, 0).value)
    ensures r.Success? && dataType == PhaseAmplitudeTag ==> r.value.amp == num.item(data, 1).value
    ensures r.Success? && dataType == PhaseIntensityTag ==> r.value.amp == num.sqrt(num.item(data, 1).value)
  {
    if dataType !in DataTypes then
      Failure(BadDataType(dataType))
    else if dataType == FieldTag then
      Success(AmpPha(num.abs(data), num.unwrap(num.angle(data))))
    else if dataType == PhaseTag then
      Success(AmpPha(num.onesLike(data), num.unwrap(data)))
    else
      match num.item(data, 0)
      case None => Failure(IndexError(0))
      case Some(first) =>
        var pha := num.unwrap(first);
        match num.item(data, 1)
        case None => Failure(IndexError(1))
        case Some(second) =>
          if dataType == PhaseAmplitudeTag then Success(AmpPha(second, pha))
          else Success(AmpPha(num.sqrt(second), pha))
  }

  /**
   * The amplitude never goes through phase unwrapping: replacing the
   * unwrapping routine by any other function changes neither whether
   * decoding succeeds nor the decoded amplitude.
   */
  lemma AmplitudeNeverUnwrapped<A>(num: Ops<A>, f: A -> A, data: A, dataType: string)
    ensures GetAmpPha(num.(unwrap := f), data, dataType).Success? == GetAmpPha(num, data, dataType).Success?
    ensures GetAmpPha(num, data, dataType).Success? ==>
      GetAmpPha(num.(unwrap := f), data, dataType).value.amp == GetAmpPha(num, data, dataType).value.amp
  {
  }

  /**
   * The phase always goes through phase unwrapping, last: there is an array
   * `w` such that the decoded phase is the unwrapping of `w`, and with the
   * unwrapping routine replaced by any `f` it becomes `f(w)`.
   */
  lemma PhaseAlwaysUnwrapped<A>(num: Ops<A>, f: A -> A, data: A, dataType: string) returns (w: A)
    requires GetAmpPha(num, data, dataType).Success?
    ensures GetAmpPha(num, data, dataType).value.pha == num.unwrap(w)
    ensures GetAmpPha(num.(unwrap := f), data, dataType).value.pha == f(w)
  {
    w := if dataType == FieldTag then num.angle(data)
         else if dataType == PhaseTag then data
         else num.item(data, 0).value;
  }

  /**
   * A phase image that is already unwrapped (unwrapping leaves it as it is,
   * as for a linear ramp from 0 to pi) decodes under "phase" to itself,
   * with an all-ones amplitude of its shape.
   */
  lemma UnwrappedPhaseDecodesToItself<A>(num: Ops<A>, data: A)
    requires num.unwrap(data) == data
    ensures GetAmpPha(num, data, PhaseTag) == Success(AmpPha(num.onesLike(data), data))
  {
  }
}
