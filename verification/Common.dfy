/** Data shared by the models: optional values, results, and the entities that travel through
    the download pipeline. */
module Common {

  datatype Option<+T> = None | Some(value: T)

  /** The outcome of a call that may fail. Error texts decide nothing in the program. */
  datatype Result<+T> = Ok(value: T) | Err

  const MAX_INT32: int := 0x7fff_ffff

  type uint32 = n: int | 0 <= n < 0x1_0000_0000

  /** The integers a Go `int` can hold on a 64-bit machine. */
  type int64 = n: int | -0x8000_0000_0000_0000 <= n < 0x8000_0000_0000_0000

  /** One line of the oldmail log: mailbox validity, message UID, server time stamp. */
  datatype Oldmail = Oldmail(uidFolder: int64, uid: int64, timestamp: int64)

  /** A message identifier as the server lists it. */
  datatype UidExt = UidExt(folder: int64, msg: int64)

  /** The values `imap.Message.Format` hands out, by the dynamic type the program switches on. */
  datatype Field =
    | Number(n: uint32)
    | Moment(unix: int64)
    | Raw(header: string)
    | Other(text: string)

  /** A message as the server sends it: the UID it answers for, and its formatted fields. */
  datatype Message = Message(uid: int64, fields: seq<Field>)

  function One(b: bool): nat { if b then 1 else 0 }

  lemma Concats<T>(s: seq<T>, t: seq<T>, u: seq<T>)
    ensures (s + t) + u == s + (t + u)
    ensures [] + s == s
  {
  }

  lemma HeadIn<T>(s: seq<T>)
    ensures s != [] ==> s[0] in s
  {
  }
}
