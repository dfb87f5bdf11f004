/** The nullable value of the source (`T | null`, an absent optional field). */
module Options {

  datatype Option<+T> = None | Some(value: T)
}
