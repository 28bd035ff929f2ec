/**
 * sftp_makedirs (main.py): make sure every directory on a `/`-separated remote path
 * exists, walking its components from the root. The remote file system is the set of paths
 * that `stat` finds; `mkdir` adds one.
 */
module Sftp {

  /** `s.split(sep)`: the pieces between separators, empty ones included. */
  function Split(s: string, sep: char): (parts: seq<string>)
    ensures |parts| >= 1
    ensures forall i :: 0 <= i < |parts| ==> sep !in parts[i]
  {
    if s == [] then [[]]
    else
      var rest := Split(s[1..], sep);
      if s[0] == sep then [[]] + rest else [[s[0]] + rest[0]] + rest[1..]
  }

  /** `sep.join(parts)` */
  function JoinWith(parts: seq<string>, sep: char): string
    requires |parts| >= 1
  {
    if |parts| == 1 then parts[0] else parts[0] + [sep] + JoinWith(parts[1..], sep)
  }

  /** Joining the pieces of a split gives back the string. */
  lemma {:induction false} SplitJoin(s: string, sep: char)
    ensures JoinWith(Split(s, sep), sep) == s
  {
    if s != [] {
      var rest := Split(s[1..], sep);
      SplitJoin(s[1..], sep);
      if s[0] != sep {
        var parts := Split(s, sep);
        if |rest| > 1 {
          assert parts[1..] == rest[1..];
        }
      }
    }
  }

  /** Splitting a join of separator-free pieces gives back the pieces. */
  lemma {:induction false} JoinSplit(parts: seq<string>, sep: char)
    requires |parts| >= 1
    requires forall i :: 0 <= i < |parts| ==> sep !in parts[i]
    ensures Split(JoinWith(parts, sep), sep) == parts
  {
    if |parts| == 1 {
      SplitNoSeparator(parts[0], sep);
    } else {
      JoinSplit(parts[1..], sep);
      SplitAfterPiece(parts[0], JoinWith(parts[1..], sep), sep);
      assert parts == [parts[0]] + parts[1..];
    }
  }

  lemma {:induction false} SplitNoSeparator(s: string, sep: char)
    requires sep !in s
    ensures Split(s, sep) == [s]
  {
    if s != [] {
      SplitNoSeparator(s[1..], sep);
      assert [s[0]] + s[1..] == s;
    }
  }

  lemma {:induction false} SplitAfterPiece(a: string, b: string, sep: char)
    requires sep !in a
    ensures Split(a + [sep] + b, sep) == [a] + Split(b, sep)
  {
    if a == [] {
      assert a + [sep] + b == [sep] + b;
      assert ([sep] + b)[1..] == b;
    } else {
      var s := a + [sep] + b;
      assert s[1..] == a[1..] + [sep] + b;
      SplitAfterPiece(a[1..], b, sep);
      assert [a[0]] + a[1..] == a;
    }
  }

  /** The non-empty pieces, in order (the `if dir_component:` filter). */
  function NonEmpty(parts: seq<string>): (cs: seq<string>)
    ensures forall i :: 0 <= i < |cs| ==> cs[i] != []
  {
    if parts == [] then []
    else NonEmpty(parts[..|parts| - 1]) + (if parts[|parts| - 1] != [] then [parts[|parts| - 1]] else [])
  }

  /** The components of a remote directory that sftp_makedirs walks. */
  function Components(dir: string): seq<string> {
    NonEmpty(Split(dir, '/'))
  }

  /** `'/' + c1 + '/' + c2 + ... + '/' + ck`: the value of `path` after components `cs`. */
  function PathOf(cs: seq<string>): string {
    if cs == [] then [] else PathOf(cs[..|cs| - 1]) + "/" + cs[|cs| - 1]
  }

  /** Every value `path` takes, in order: `PathOf` of each non-empty prefix of `cs`. */
  function Prefixes(cs: seq<string>): (ps: seq<string>)
    ensures |ps| == |cs|
  {
    if cs == [] then [] else Prefixes(cs[..|cs| - 1]) + [PathOf(cs)]
  }

  /** The elements of `ps` absent from `known`, in order. */
  function Missing(ps: seq<string>, known: set<string>): seq<string> {
    if ps == [] then []
    else Missing(ps[..|ps| - 1], known) + (if ps[|ps| - 1] in known then [] else [ps[|ps| - 1]])
  }

  function Elems(ps: seq<string>): set<string> {
    set p | p in ps
  }

  /** The k-th prefix is the path of the first k+1 components, `/c1/.../c(k+1)`. */
  lemma {:induction false} PrefixAt(cs: seq<string>, k: nat)
    requires k < |cs|
    ensures Prefixes(cs)[k] == PathOf(cs[..k + 1])
    ensures PathOf(cs[..k + 1]) == "/" + JoinWith(cs[..k + 1], '/')
  {
    if k < |cs| - 1 {
      PrefixAt(cs[..|cs| - 1], k);
      assert cs[..|cs| - 1][..k + 1] == cs[..k + 1];
    } else {
      assert cs[..k + 1] == cs;
    }
    PathOfJoin(cs[..k + 1]);
  }

  lemma {:induction false} PathOfJoin(cs: seq<string>)
    requires |cs| >= 1
    ensures PathOf(cs) == "/" + JoinWith(cs, '/')
  {
    if |cs| > 1 {
      var init := cs[..|cs| - 1];
      PathOfJoin(init);
      JoinWithSnoc(init, cs[|cs| - 1], '/');
      assert init + [cs[|cs| - 1]] == cs;
    }
  }

  lemma {:induction false} JoinWithSnoc(parts: seq<string>, last: string, sep: char)
    requires |parts| >= 1
    ensures JoinWith(parts + [last], sep) == JoinWith(parts, sep) + [sep] + last
  {
    if |parts| > 1 {
      JoinWithSnoc(parts[1..], last, sep);
      assert (parts + [last])[1..] == parts[1..] + [last];
    }
  }

  /** No prefix is longer than the full path. */
  lemma {:induction false} PrefixesNoLonger(cs: seq<string>)
    ensures forall q :: q in Prefixes(cs) ==> |q| <= |PathOf(cs)|
  {
    if cs != [] {
      PrefixesNoLonger(cs[..|cs| - 1]);
    }
  }

  /** A path is created by the walk exactly when it is a prefix that did not exist before. */
  lemma {:induction false} MissingIff(ps: seq<string>, known: set<string>)
    ensures forall q :: q in Missing(ps, known) <==> q in ps && q !in known
  {
    if ps != [] {
      var init := ps[..|ps| - 1];
      MissingIff(init, known);
      assert ps == init + [ps[|ps| - 1]];
    }
  }

  /**
   * Once every prefix exists, walking the same directory again creates nothing and adds
   * nothing: sftp_makedirs is idempotent.
   */
  lemma MakeDirsIdempotent(dir: string, known: set<string>)
    requires Elems(Prefixes(Components(dir))) <= known
    ensures Missing(Prefixes(Components(dir)), known) == []
    ensures known + Elems(Prefixes(Components(dir))) == known
  {
    MissingOfKnown(Prefixes(Components(dir)), known);
  }

  lemma {:induction false} MissingOfKnown(ps: seq<string>, known: set<string>)
    requires Elems(ps) <= known
    ensures Missing(ps, known) == []
  {
    if ps != [] {
      assert ps[|ps| - 1] in Elems(ps);
      assert Elems(ps[..|ps| - 1]) <= Elems(ps);
      MissingOfKnown(ps[..|ps| - 1], known);
    }
  }

  /** The walk of a normalized path `/c1/.../ck` visits exactly `c1 .. ck`. */
  lemma ComponentsOfPath(cs: seq<string>)
    requires |cs| >= 1
    requires forall i :: 0 <= i < |cs| ==> cs[i] != [] && '/' !in cs[i]
    ensures Components(PathOf(cs)) == cs
  {
    hide Split, JoinWith, NonEmpty, PathOf;
    var empty: seq<string> := [[]];
    var parts := empty + cs;
    PathOfJoin(cs);
    JoinWithLeadingEmpty(cs, '/');
    JoinSplit(parts, '/');
    NonEmptyConcat(empty, cs);
    NonEmptyAllNonEmpty(cs);
    NonEmptyOfEmptyPiece();
  }

  /** A leading empty piece contributes only its separator. */
  lemma JoinWithLeadingEmpty(cs: seq<string>, sep: char)
    requires |cs| >= 1
    ensures JoinWith([[]] + cs, sep) == [sep] + JoinWith(cs, sep)
  {
    var parts: seq<string> := [[]] + cs;
    assert parts[0] == [] && parts[1..] == cs;
  }

  lemma NonEmptyOfEmptyPiece()
    ensures NonEmpty([[]]) == []
  {
    var empty: seq<string> := [[]];
    assert empty[..0] == [];
  }

  lemma {:induction false} NonEmptyConcat(a: seq<string>, b: seq<string>)
    ensures NonEmpty(a + b) == NonEmpty(a) + NonEmpty(b)
  {
    if b != [] {
      NonEmptyConcat(a, b[..|b| - 1]);
      assert (a + b)[..|a + b| - 1] == a + b[..|b| - 1];
    } else {
      assert a + b == a;
    }
  }

  lemma {:induction false} NonEmptyAllNonEmpty(cs: seq<string>)
    requires forall i :: 0 <= i < |cs| ==> cs[i] != []
    ensures NonEmpty(cs) == cs
  {
    if cs != [] {
      NonEmptyAllNonEmpty(cs[..|cs| - 1]);
    }
  }

  lemma NonEmptyStep(dirs: seq<string>, i: nat)
    requires i < |dirs|
    ensures NonEmpty(dirs[..i + 1]) == NonEmpty(dirs[..i]) + (if dirs[i] != [] then [dirs[i]] else [])
  {
    assert dirs[..i + 1][..i] == dirs[..i];
  }

  /** One more component: the path grows by it, is new among the prefixes, and is created when missing. */
  lemma WalkStep(cs: seq<string>, c: string, known: set<string>)
    requires c != []
    ensures PathOf(cs + [c]) == PathOf(cs) + "/" + c
    ensures Prefixes(cs + [c]) == Prefixes(cs) + [PathOf(cs + [c])]
    ensures PathOf(cs + [c]) !in Elems(Prefixes(cs))
    ensures Elems(Prefixes(cs + [c])) == Elems(Prefixes(cs)) + {PathOf(cs + [c])}
    ensures Missing(Prefixes(cs + [c]), known)
         == Missing(Prefixes(cs), known) + (if PathOf(cs + [c]) in known then [] else [PathOf(cs + [c])])
  {
    assert (cs + [c])[..|cs|] == cs;
    PrefixesNoLonger(cs);
    var ps := Prefixes(cs) + [PathOf(cs + [c])];
    assert ps[..|ps| - 1] == Prefixes(cs);
  }

  /** The loop step of sftp_makedirs, stated on the walk so far (`dirs[..i]`) and the next piece. */
  lemma MakeDirsStep(dirs: seq<string>, i: nat, known: set<string>)
    requires i < |dirs|
    ensures var cs, cs' := NonEmpty(dirs[..i]), NonEmpty(dirs[..i + 1]);
      if dirs[i] == [] then cs' == cs
      else
        && PathOf(cs') == PathOf(cs) + "/" + dirs[i]
        && PathOf(cs') !in Elems(Prefixes(cs))
        && Elems(Prefixes(cs')) == Elems(Prefixes(cs)) + {PathOf(cs')}
        && Missing(Prefixes(cs'), known) == Missing(Prefixes(cs), known) + (if PathOf(cs') in known then [] else [PathOf(cs')])
  {
    NonEmptyStep(dirs, i);
    if dirs[i] != [] {
      WalkStep(NonEmpty(dirs[..i]), dirs[i], known);
    }
  }

  /** Before the first piece the walk has built nothing. */
  lemma WalkStart(dirs: seq<string>, known: set<string>)
    ensures PathOf(NonEmpty(dirs[..0])) == ""
    ensures Elems(Prefixes(NonEmpty(dirs[..0]))) == {}
    ensures Missing(Prefixes(NonEmpty(dirs[..0])), known) == []
  {
    assert dirs[..0] == [];
  }

  /** The SFTP server as sftp_makedirs sees it. */
  class RemoteStore {
    /** The paths `stat` finds. */
    var paths: set<string>
    /** Every `mkdir` issued, in order. */
    var mkdirs: seq<string>

    constructor (existing: set<string>)
      ensures paths == existing && mkdirs == []
    {
      paths := existing;
      mkdirs := [];
    }

    /**
     * sftp_makedirs: afterwards every prefix of the directory exists; `mkdir` was issued,
     * in walk order, for exactly the prefixes that did not exist before.
     */
    method MakeDirs(remoteDirectory: string)
      modifies this
      ensures paths == old(paths) + Elems(Prefixes(Components(remoteDirectory)))
      ensures mkdirs == old(mkdirs) + Missing(Prefixes(Components(remoteDirectory)), old(paths))
    {
      hide Split, NonEmpty, PathOf, Prefixes, Missing, Elems;
      var dirs := Split(remoteDirectory, '/');
      var path := "";
      WalkStart(dirs, old(paths));
      for i := 0 to |dirs|
        invariant path == PathOf(NonEmpty(dirs[..i]))
        invariant paths == old(paths) + Elems(Prefixes(NonEmpty(dirs[..i])))
        invariant mkdirs == old(mkdirs) + Missing(Prefixes(NonEmpty(dirs[..i])), old(paths))
      {
        var dirComponent := dirs[i];
        MakeDirsStep(dirs, i, old(paths));
        if dirComponent != "" {
          path := path + "/" + dirComponent;
          if path !in paths {
            paths := paths + {path};
            mkdirs := mkdirs + [path];
          }
        }
      }
      assert dirs[..|dirs|] == dirs;
    }
  }
}
