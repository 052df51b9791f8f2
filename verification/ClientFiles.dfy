/** The files below a client's root directory. A path is relative to that directory. */
module ClientFiles {
  /** `fails` is the outcome the operating system chooses; a write that fails changes nothing. */
  class Files {
    var texts: map<string, string>

    constructor ()
      ensures texts == map[]
    {
      texts := map[];
    }

    method Write(path: string, text: string, fails: bool) returns (ok: bool)
      modifies this
      ensures ok <==> !fails
      ensures texts == if ok then old(texts)[path := text] else old(texts)
    {
      ok := !fails;
      if ok {
        texts := texts[path := text];
      }
    }

    /** create_new: an existing file is never replaced. */
    method CreateNew(path: string, text: string, fails: bool) returns (ok: bool)
      modifies this
      ensures ok <==> !fails && path !in old(texts)
      ensures texts == if ok then old(texts)[path := text] else old(texts)
    {
      ok := !fails && path !in texts;
      if ok {
        texts := texts[path := text];
      }
    }
  }
}
