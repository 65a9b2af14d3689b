/** An optional value: `None` stands for the JavaScript `null` / NaN results that the
    analysis loop treats as "no pitch". */
module Wrappers {
  datatype Option<+T> = None | Some(value: T)
}
