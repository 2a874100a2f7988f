/** Failure outcomes shared by every component.  Every error the scoring engine
    raises is a ValueError in the Python framework; the constructors below say
    which check raised it. */
module Wrappers {

  datatype Option<+T> = None | Some(value: T) {
    function GetOr(default: T): T {
      match this
      case Some(v) => v
      case None => default
    }
  }

  /** Why an operation was refused. */
  datatype Error =
    | WeightOutOfRange        // a weight outside [0, 1] given to a constructor
    | WeightCeilingExceeded   // an insertion that would push the total weight past the ceiling
    | NoEvaluationFunction    // a metric evaluated before a scoring function was attached
    | ScoreOutOfRange         // a score outside [0, 1]
    | UnknownMetric           // a score set on a metric name that was never registered
    | EvaluationFailed        // the attached scoring function itself raised

  datatype Result<+T> = Ok(value: T) | Err(error: Error)

  /** Outcome of an operation that returns nothing on success. */
  datatype Outcome = Pass | Fail(error: Error)
}
