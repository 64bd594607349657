/** What a command handler writes back to its client, independent of the wire
    encoding, plus the small Option/Result wrappers the model uses. */
module Replies {

  datatype Option<T> = None | Some(value: T)

  datatype Result<T, E> = Ok(value: T) | Err(error: E)

  /** An error reply. Messages whose text lives in a named constant outside the
      command files are tagged by that constant; literal messages keep their text. */
  datatype Failure =
    | Msg(text: string)                           // a literal message written by the handler
    | WrongNumber(cmd: string)                    // errWrongNumber(cmd)
    | InvalidInt                                  // msgInvalidInt
    | SyntaxError                                 // msgSyntaxError
    | InvalidStreamId                             // msgInvalidStreamID
    | InvalidEntryId                              // errInvalidEntryID, returned by the stream internals
    | XreadUnbalanced                             // msgXreadUnbalanced
    | XgroupKeyNotFound                           // msgXgroupKeyNotFound
    | KeyNotFound                                 // msgKeyNotFound
    | WrongType                                   // ErrWrongType
    | BusyGroup                                   // createGroup on a group name already in use
    | NoGroupForRead(key: string, group: string)  // errXreadgroup(key, group)
    | NoGroup(key: string, group: string)         // errReadgroup(key, group)
    | AtoiFailed(arg: string)                     // the error strconv.Atoi itself returns for arg

  /** The replies c.Write* (stream layer) and out.Write* (string layer) produce. */
  datatype Reply =
    | Int(n: int)
    | Bulk(s: string)
    | Null                                        // a nil bulk string
    | NullArray                                   // WriteLen(-1)
    | Array(items: seq<Reply>)
    | Map(pairs: seq<(string, Reply)>)
    | Error(failure: Failure)
    | OK
}
