/** A value the C# code may hold as null: the SQL text of QueryOpened and
    the error message of Error, and the result of the cache lookup. */
module Optional {

  datatype Option<+T> = None | Some(value: T)
}
