/** The `Quake` record: one seismic event, validated once at construction
    and immutable afterwards. */
module Quakes {
  import opened Wrappers

  /** A point in time; only its order matters to the library, so an integer
      (for instance milliseconds since the epoch) stands for `Instant`. */
  type Instant = int

  /** A Kotlin data class: equality is structural over all five fields. */
  datatype Quake = Quake(time: Instant, longitude: real, latitude: real, depth: real, magnitude: real)
  {
    /** The constructor's range checks, all inclusive except magnitude's. */
    predicate Valid() {
      && -180.0 <= longitude <= 180.0
      && -90.0 <= latitude <= 90.0
      && depth >= 0.0
      && magnitude > 0.0
    }
  }

  /** A quake that passed construction; since every field is read-only, every
      `Quake` value the library ever holds is one of these. */
  type ValidQuake = q: Quake | q.Valid() witness Quake(0, 0.0, 0.0, 0.0, 1.0)

  /** The `IllegalArgumentException` thrown by a failed `require` in `init`. */
  datatype QuakeError = InvalidLongitude | InvalidLatitude | InvalidDepth | InvalidMagnitude
  {
    function Message(): string {
      match this
      case InvalidLongitude => "Invalid longitude"
      case InvalidLatitude => "Invalid latitude"
      case InvalidDepth => "Invalid depth"
      case InvalidMagnitude => "Invalid magnitude"
    }
  }

  /** The constructor `Quake(time, longitude, latitude, depth, magnitude)`:
      the checks run in declaration order, so the error names the first
      field that is out of range. */
  function NewQuake(time: Instant, longitude: real, latitude: real, depth: real, magnitude: real)
    : (r: Result<ValidQuake, QuakeError>)
    ensures r.Success? <==>
              && -180.0 <= longitude <= 180.0
              && -90.0 <= latitude <= 90.0
              && depth >= 0.0
              && magnitude > 0.0
    ensures r.Success? ==>
              && r.value.time == time
              && r.value.longitude == longitude
              && r.value.latitude == latitude
              && r.value.depth == depth
              && r.value.magnitude == magnitude
    ensures r == Failure(InvalidLongitude) <==> !(-180.0 <= longitude <= 180.0)
    ensures r == Failure(InvalidLatitude) <==>
              -180.0 <= longitude <= 180.0 && !(-90.0 <= latitude <= 90.0)
    ensures r == Failure(InvalidDepth) <==>
              -180.0 <= longitude <= 180.0 && -90.0 <= latitude <= 90.0 && depth < 0.0
    ensures r == Failure(InvalidMagnitude) <==>
              -180.0 <= longitude <= 180.0 && -90.0 <= latitude <= 90.0 && depth >= 0.0 && magnitude <= 0.0
  {
    if !(-180.0 <= longitude <= 180.0) then Failure(InvalidLongitude)
    else if !(-90.0 <= latitude <= 90.0) then Failure(InvalidLatitude)
    else if !(depth >= 0.0) then Failure(InvalidDepth)
    else if !(magnitude > 0.0) then Failure(InvalidMagnitude)
    else Success(Quake(time, longitude, latitude, depth, magnitude))
  }

  /** Construction accepts exactly the valid quakes and hands back the very
      record described by its arguments. */
  lemma NewQuakeAcceptsExactlyValid(q: Quake)
    ensures NewQuake(q.time, q.longitude, q.latitude, q.depth, q.magnitude).Success? <==> q.Valid()
    ensures q.Valid() ==> NewQuake(q.time, q.longitude, q.latitude, q.depth, q.magnitude) == Success(q)
  {
  }

  /** The boundary cases exercised by the library's tests: the bounds on
      longitude, latitude and depth are inclusive, the one on magnitude strict. */
  lemma NewQuakeBoundaries(t: Instant)
    ensures NewQuake(t, -180.0, 0.0, 5.0, 5.0).Success?
    ensures NewQuake(t, 180.0, 0.0, 5.0, 5.0).Success?
    ensures NewQuake(t, -180.5, 0.0, 5.0, 5.0) == Failure(InvalidLongitude)
    ensures NewQuake(t, 180.5, 0.0, 5.0, 5.0) == Failure(InvalidLongitude)
    ensures NewQuake(t, 0.0, -90.0, 5.0, 5.0).Success?
    ensures NewQuake(t, 0.0, 90.0, 5.0, 5.0).Success?
    ensures NewQuake(t, 0.0, -90.5, 5.0, 5.0) == Failure(InvalidLatitude)
    ensures NewQuake(t, 0.0, 90.5, 5.0, 5.0) == Failure(InvalidLatitude)
    ensures NewQuake(t, 0.0, 0.0, 0.0, 5.0).Success?
    ensures NewQuake(t, 0.0, 0.0, -1.0, 5.0) == Failure(InvalidDepth)
    ensures NewQuake(t, 0.0, 0.0, 5.0, 0.0) == Failure(InvalidMagnitude)
    ensures NewQuake(t, 0.0, 0.0, 5.0, -1.0) == Failure(InvalidMagnitude)
  {
  }
}
