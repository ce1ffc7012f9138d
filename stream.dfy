/** The resumable line reader shared by `efm_cluster_status` and
    `efm_list_properties`: an `OutputContext` holding the pipe and the
    `getline` buffer across the calls of a set-returning function.

    The pipe is modelled by everything the spawned command writes (`Pipe.output`)
    and the status `pclose` reports once it is drained. */
module EfmStream {
  import opened EfmErrors

  /** What `popen` hands back: the command's whole standard output and the
      status `pclose` will report. */
  datatype Pipe = Pipe(output: string, status: int)

  /** The outcome of one call of a set-returning function. */
  datatype Step =
    | Row(record: string)   // SRF_RETURN_NEXT
    | Done                  // SRF_RETURN_DONE
    | Raised(error: Error)  // elog(ERROR, ...)

  // ---------------------------------------------------------------------
  // getline semantics (POSIX.1-2008, getdelim with delimiter '\n')
  // ---------------------------------------------------------------------

  /** The number of characters one `getline` call takes from `s`: up to and
      including the first '\n', or all of `s` when it holds no '\n'. Zero only
      when nothing is left, which is where `getline` returns -1. */
  function ChunkLength(s: string): (k: nat)
    ensures s == [] <==> k == 0
    ensures s != [] ==> k <= |s| && '\n' !in s[..k - 1]
    ensures s != [] ==> s[k - 1] == '\n' || k == |s|
  {
    if s == [] then 0
    else if s[0] == '\n' then 1
    else
      var k := ChunkLength(s[1..]);
      if k == 0 then 1
      else
        assert s[..k] == [s[0]] + s[1..][..k - 1];
        k + 1
  }

  /** The record made from one chunk: at most one trailing '\n' removed. */
  function Strip(chunk: string): (r: string)
  {
    if chunk != [] && chunk[|chunk| - 1] == '\n' then chunk[..|chunk| - 1] else chunk
  }

  /** A record is a prefix of its chunk, one shorter exactly when the chunk
      ends in '\n' and the whole chunk otherwise. */
  lemma StripRemovesOneNewline(chunk: string)
    ensures |Strip(chunk)| <= |chunk| && Strip(chunk) == chunk[..|Strip(chunk)|]
    ensures |Strip(chunk)| == if chunk != [] && chunk[|chunk| - 1] == '\n' then |chunk| - 1 else |chunk|
  {
  }

  /** The records a reader produces from the whole output `s`, in order. */
  function Records(s: string): (rs: seq<string>)
    ensures rs == [] <==> s == []
    decreases |s|
  {
    if s == [] then []
    else
      var k := ChunkLength(s);
      [Strip(s[..k])] + Records(s[k..])
  }

  /** Each record followed by '\n': the text the records were read from. */
  function Unlines(rs: seq<string>): (s: string)
  {
    if rs == [] then [] else rs[0] + "\n" + Unlines(rs[1..])
  }

  /** No record contains a '\n'. */
  lemma {:induction false} RecordsHaveNoNewline(s: string)
    ensures forall i :: 0 <= i < |Records(s)| ==> '\n' !in Records(s)[i]
    decreases |s|
  {
    if s != [] {
      var k := ChunkLength(s);
      RecordsUnfold(s);
      RecordsHaveNoNewline(s[k..]);
      FirstRecordHasNoNewline(s);
    }
  }

  /** The first record is the first chunk stripped; the rest come from what follows it. */
  lemma RecordsUnfold(s: string)
    requires s != []
    ensures Records(s) == [Strip(s[..ChunkLength(s)])] + Records(s[ChunkLength(s)..])
  {
  }

  lemma UnlinesCons(r: string, rs: seq<string>)
    ensures Unlines([r] + rs) == r + "\n" + Unlines(rs)
  {
    assert ([r] + rs)[1..] == rs;
  }

  /** The first chunk stripped: one '\n' short of the chunk when it ends in
      one, else all of `s`. */
  lemma StripChunk(s: string, k: nat)
    requires 0 < k <= |s|
    requires s[k - 1] == '\n' || k == |s|
    ensures s[k - 1] == '\n' ==> Strip(s[..k]) + "\n" == s[..k]
    ensures s[k - 1] != '\n' ==> Strip(s[..k]) == s
  {
    var chunk := s[..k];
    if s[k - 1] == '\n' {
      assert chunk[..k - 1] + "\n" == chunk;
    } else {
      assert chunk == s;
    }
  }

  /** Gluing a stripped first chunk back onto the text after it. */
  lemma JoinChunk(s: string, k: nat, c: string, u: string)
    requires 0 < k <= |s|
    requires s[k - 1] == '\n' ==> c + "\n" == s[..k]
    requires s[k - 1] != '\n' ==> k == |s| && c == s
    requires u == if s[k..] == [] || s[|s| - 1] == '\n' then s[k..] else s[k..] + "\n"
    ensures c + "\n" + u == if s[|s| - 1] == '\n' then s else s + "\n"
  {
    assert s[..k] + s[k..] == s;
    if s[k - 1] != '\n' {
      assert s[k..] == [];
    } else if s[k..] != [] && s[|s| - 1] != '\n' {
      assert s[..k] + (s[k..] + "\n") == s + "\n";
    }
  }

  /** Reading the records back as lines gives the output again, with a final
      '\n' added when the output did not end with one. */
  lemma {:induction false} UnlinesRecords(s: string)
    ensures Unlines(Records(s)) == if s == [] || s[|s| - 1] == '\n' then s else s + "\n"
    decreases |s|
  {
    if s != [] {
      var k := ChunkLength(s);
      var c := Strip(s[..k]);
      RecordsUnfold(s);
      UnlinesCons(c, Records(s[k..]));
      UnlinesRecords(s[k..]);
      StripChunk(s, k);
      JoinChunk(s, k, c, Unlines(Records(s[k..])));
    }
  }

  /** A chunk of `x + "\n" + y` ends right after the first '\n' when `x` has none. */
  lemma ChunkOfLine(x: string, y: string)
    requires '\n' !in x
    ensures ChunkLength(x + "\n" + y) == |x| + 1
  {
    var s := x + "\n" + y;
    assert s[|x|] == '\n';
    assert s[..|x|] == x;
  }

  /** A line without '\n', followed by '\n', is read as one record ahead of
      the records of what follows it. */
  lemma RecordsCons(x: string, y: string)
    requires '\n' !in x
    ensures Records(x + "\n" + y) == [x] + Records(y)
  {
    var s := x + "\n" + y;
    ChunkOfLine(x, y);
    RecordsUnfold(s);
    assert s[..|x| + 1] == x + "\n";
    assert (x + "\n")[..|x|] == x;
    assert s[|x| + 1..] == y;
  }

  /** Lines without '\n', written out one per line, are read back unchanged. */
  lemma {:induction false} RecordsUnlines(rs: seq<string>)
    requires forall i :: 0 <= i < |rs| ==> '\n' !in rs[i]
    ensures Records(Unlines(rs)) == rs
  {
    if rs != [] {
      assert '\n' !in rs[0];
      RecordsCons(rs[0], Unlines(rs[1..]));
      RecordsUnlines(rs[1..]);
      assert rs == [rs[0]] + rs[1..];
    }
  }

  /** "a\nb\nc\n" yields the records a, b and c. */
  lemma ThreeTerminatedLines()
    ensures Records("a\nb\nc\n") == ["a", "b", "c"]
  {
    var rs := ["a", "b", "c"];
    assert Unlines(rs[2..]) == "c\n";
    assert Unlines(rs[1..]) == "b\nc\n";
    assert Unlines(rs) == "a\nb\nc\n";
    RecordsUnlines(rs);
  }

  /** A missing final '\n' loses nothing: "a\nb" yields the records a and b. */
  lemma UnterminatedLastLine()
    ensures Records("a\nb") == ["a", "b"]
  {
    var s := "a\nb";
    ChunkOfLine("a", "b");
    assert s[..2] == "a\n" && s[2..] == "b";
    assert Strip("a\n") == "a";
    assert ChunkLength("b") == 1;
    assert "b"[..1] == "b" && "b"[1..] == [];
    assert Records("b") == ["b"];
  }

  /** A lone "\n" yields one empty record. */
  lemma LoneNewline()
    ensures Records("\n") == [""]
  {
    assert "\n"[1..] == [];
  }

  /** What `Strip` does to a chunk of known length: cut it one short when
      its last character is '\n'. */
  lemma StripLast(chunk: string)
    requires chunk != []
    ensures Strip(chunk) == chunk[..if chunk[|chunk| - 1] == '\n' then |chunk| - 1 else |chunk|]
  {
  }

  /** The first chunk, stripped, holds no '\n'. */
  lemma FirstRecordHasNoNewline(s: string)
    requires s != []
    ensures '\n' !in Strip(s[..ChunkLength(s)])
  {
    var k := ChunkLength(s);
    var chunk := s[..k];
    StripLast(chunk);
    if s[k - 1] == '\n' {
      assert chunk[..k - 1] == s[..k - 1];
    } else {
      assert chunk == s[..k - 1] + [s[k - 1]];
    }
  }

  /** One `getline` call on what the pipe still holds: the chunk it returns,
      with at most one trailing '\n' cut off, is the first pending record; it
      holds no '\n', and the records of what is left after the chunk are the
      rest. */
  lemma Advance(unread: string)
    requires unread != []
    ensures var k := ChunkLength(unread);
      var chunk := unread[..k];
      0 < k <= |unread| && unread == chunk + unread[k..] &&
      Records(unread) != [] &&
      Records(unread)[0] == Strip(chunk) &&
      Records(unread[k..]) == Records(unread)[1..] &&
      Strip(chunk) == chunk[..if chunk[k - 1] == '\n' then k - 1 else k] &&
      '\n' !in Strip(chunk)
  {
    var k := ChunkLength(unread);
    var chunk, tail := unread[..k], unread[k..];
    assert unread == chunk + tail;
    RecordsUnfold(unread);
    var rs := Records(tail);
    assert Records(unread) == [Strip(chunk)] + rs;
    assert ([Strip(chunk)] + rs)[1..] == rs;
    FirstRecordHasNoNewline(unread);
    StripLast(chunk);
  }

  // ---------------------------------------------------------------------
  // The per-call state of a set-returning function
  // ---------------------------------------------------------------------

  /** `OutputContext { fp, line, len }`, kept in `funcctx->user_fctx`.
      `unread` is what `fp` has still to deliver, `line` is the content of
      the `getline` buffer and `closed` records that the buffer was freed and
      `fp` passed to `pclose`. */
  class OutputContext {
    const status: int
    const ignoreErrors: bool
    var unread: string
    var line: string
    var closed: bool

    /** How often the pipe was closed. */
    ghost var closeCount: nat

    ghost predicate Valid()
      reads this
    {
      closeCount == (if closed then 1 else 0) &&
      (closed ==> unread == [])
    }

    /** The records still to come. */
    ghost function Pending(): (rs: seq<string>)
      reads this
    {
      Records(unread)
    }

    /** The context `palloc0` creates right after a successful `popen`. */
    constructor (pipe: Pipe, ignoreErrors: bool)
      ensures Valid()
      ensures unread == pipe.output && status == pipe.status && this.ignoreErrors == ignoreErrors
      ensures line == [] && !closed
      ensures Pending() == Records(pipe.output)
    {
      status := pipe.status;
      this.ignoreErrors := ignoreErrors;
      unread := pipe.output;
      line := [];
      closed := false;
      closeCount := 0;
    }

    /** One per-call step: read one `getline` chunk and return it with at most
        one trailing '\n' removed; at end of stream free the buffer, close the
        pipe and finish, raising an error for a non-zero close status unless
        errors are ignored. */
    method Next() returns (step: Step)
      requires Valid() && !closed
      modifies this
      ensures Valid()
      ensures old(unread) == [] ==>
        closed && closeCount == 1 &&
        step == (if status != 0 && !ignoreErrors then Raised(FailedToRunCommand) else Done)
      ensures old(unread) != [] ==>
        !closed && |unread| < |old(unread)| && old(unread) == line + unread &&
        step == Row(Records(old(unread))[0]) &&
        Records(unread) == Records(old(unread))[1..] &&
        step.record == Strip(line) && '\n' !in step.record
    {
      var rest := unread;
      var read: int := if rest == [] then -1 else ChunkLength(rest);
      if read == -1 {
        line := [];
        closed := true;
        closeCount := closeCount + 1;
        if status != 0 && !ignoreErrors {
          step := Raised(FailedToRunCommand);
        } else {
          step := Done;
        }
        return;
      }
      Advance(rest);
      line, unread := rest[..read], rest[read..];
      if line[read - 1] == '\n' {
        read := read - 1;
      }
      step := Row(line[..read]);
    }
  }
}
