/**
 * Pathname resolution: dir_namev and open_namev against recursion over the list of components,
 * without symbolic links, as in section 4.13 of POSIX.1-2017 Base Definitions.
 */
module PathWalk {
  import opened Lists

  type VnId = nat

  datatype Errno = EINVAL | ENAMETOOLONG | ENOTDIR | ENOENT | EISDIR | Other(code: nat)

  datatype Result<+T> = Ok(value: T) | Err(error: Errno)

  /**
   * What the file system answers. A vnode has a lookup operation, and a create and a mkdir
   * operation, exactly when its mode says that it is a directory. `nameLen` is NAME_LEN.
   */
  datatype Fs = Fs(dirs: set<VnId>, entries: map<(VnId, string), Result<VnId>>, root: VnId, nameLen: nat)

  /** The function lookup, apart from the reference it takes. */
  function Lookup(fs: Fs, dir: VnId, name: string): (r: Result<VnId>) {
    if dir !in fs.dirs then Err(ENOTDIR)
    else if (dir, name) in fs.entries then fs.entries[(dir, name)] else Err(ENOENT)
  }

  // ---------------------------------------------------------------------------------------------
  // Components

  function SkipSlashes(p: string): (r: string)
    ensures |r| <= |p| && (r != [] ==> r[0] != '/')
  {
    if p != [] && p[0] == '/' then SkipSlashes(p[1..]) else p
  }

  /** The longest prefix without a slash. */
  function Component(p: string): (r: string)
    ensures |r| <= |p| && r == p[..|r|] && (|r| < |p| ==> p[|r|] == '/')
    ensures p != [] && p[0] != '/' ==> r != []
  {
    if p == [] || p[0] == '/' then [] else [p[0]] + Component(p[1..])
  }

  /** The non-empty parts of a pathname between slashes. */
  function Components(p: string): (r: seq<string>)
    decreases |p|
  {
    var q := SkipSlashes(p);
    if q == [] then [] else [Component(q)] + Components(q[|Component(q)|..])
  }

  predicate EndsInSlash(p: string) { p != [] && p[|p| - 1] == '/' }

  // ---------------------------------------------------------------------------------------------
  // Resolution by recursion

  datatype Place = Place(dir: VnId, name: string)

  /**
   * Walks down all components but the last, and reports the directory it ends in with the last
   * name. The last component may be missing there; with `slash` it must not be something else
   * than a directory.
   */
  function Resolve(fs: Fs, dir: VnId, names: seq<string>, slash: bool): (r: Result<Place>)
    decreases |names|
  {
    if names == [] then Ok(Place(dir, "."))
    else if |names[0]| > fs.nameLen then Err(ENAMETOOLONG)
    else
      match Lookup(fs, dir, names[0])
      case Err(e) => if e == ENOENT && |names| == 1 then Ok(Place(dir, names[0])) else Err(e)
      case Ok(v) =>
        if |names| > 1 then Resolve(fs, v, names[1..], slash)
        else if slash && v !in fs.dirs then Err(ENOTDIR)
        else Ok(Place(dir, names[0]))
  }

  function ResolvePath(fs: Fs, start: VnId, path: string): (r: Result<Place>) {
    if path == [] then Err(EINVAL) else Resolve(fs, start, Components(path), EndsInSlash(path))
  }

  lemma {:induction false} SkipAll(p: string, i: nat)
    requires i <= |p| && forall j :: 0 <= j < i ==> p[j] == '/'
    ensures Components(p) == Components(p[i..])
  {
    if i > 0 {
      SkipAll(p[1..], i - 1);
      assert p[1..][i - 1..] == p[i..];
    }
  }

  lemma {:induction false} ComponentIs(p: string, n: nat)
    requires n <= |p| && (forall j :: 0 <= j < n ==> p[j] != '/') && (n < |p| ==> p[n] == '/')
    ensures Component(p) == p[..n]
  {
    if n > 0 {
      ComponentIs(p[1..], n - 1);
      assert p[..n] == [p[0]] + p[1..][..n - 1];
    }
  }

  /** The scan of one component. */
  lemma NextComponent(p: string, i: nat, j: nat)
    requires i < j <= |p| && (forall x :: i <= x < j ==> p[x] != '/') && (j < |p| ==> p[j] == '/')
    ensures Components(p[i..]) == [p[i..j]] + Components(p[j..])
  {
    var q := p[i..];
    ComponentIs(q, j - i);
    assert q[..j - i] == p[i..j] && q[j - i..] == p[j..];
    assert SkipSlashes(q) == q;
  }

  // ---------------------------------------------------------------------------------------------
  // namev.c

  function Plus(refs: multiset<VnId>, v: VnId): (r: multiset<VnId>) { refs + multiset{v} }

  function Minus(refs: multiset<VnId>, v: VnId): (r: multiset<VnId>) { refs - multiset{v} }

  predicate Holds(refs: multiset<VnId>, v: VnId) { v in refs }

  lemma GiveBack(refs: multiset<VnId>, a: VnId, b: VnId)
    ensures Holds(Plus(refs, a), a) && Minus(Plus(refs, a), a) == refs
    ensures Holds(Plus(Plus(refs, a), b), a) && Minus(Plus(Plus(refs, a), b), a) == Plus(refs, b)
    ensures Holds(Plus(refs, b), b) && Minus(Plus(Plus(refs, a), b), b) == Plus(refs, a)
    ensures Minus(Plus(refs, b), b) == refs
    ensures Holds(Plus(Plus(refs, a), b), b)
  {
  }

  class Walker {
    const fs: Fs
    // the references taken by the calls below and not yet given back
    var refs: multiset<VnId>

    constructor (fs: Fs)
      ensures this.fs == fs && refs == multiset{}
    {
      this.fs, refs := fs, multiset{};
    }

    method Vref(v: VnId)
      modifies this
      ensures refs == Plus(old(refs), v) == old(refs) + multiset{v}
    {
      refs := refs + multiset{v};
    }

    method Vput(v: VnId)
      requires Holds(refs, v)
      modifies this
      ensures refs == Minus(old(refs), v) == old(refs) - multiset{v}
    {
      refs := refs - multiset{v};
    }

    /** lookup: the entry of `name` in `dir`; on success the vnode found has one more reference. */
    method LookupRef(dir: VnId, name: string) returns (r: Result<VnId>)
      modifies this
      ensures r == Lookup(fs, dir, name)
      ensures dir !in fs.dirs ==> r == Err(ENOTDIR)
      ensures dir in fs.dirs && (dir, name) in fs.entries ==> r == fs.entries[(dir, name)]
      ensures dir in fs.dirs && (dir, name) !in fs.entries ==> r == Err(ENOENT)
      ensures refs == if r.Ok? then Plus(old(refs), r.value) else old(refs)
    {
      if dir !in fs.dirs {
        return Err(ENOTDIR);
      }
      r := if (dir, name) in fs.entries then fs.entries[(dir, name)] else Err(ENOENT);
      if r.Ok? {
        Vref(r.value);
      }
    }

    /** The position of the first slash, or of the end, from `i` on. */
    method ScanName(path: string, i: nat) returns (j: nat)
      requires i <= |path|
      ensures i <= j <= |path| && (forall x :: i <= x < j ==> path[x] != '/') && (j < |path| ==> path[j] == '/')
    {
      j := i;
      while j < |path| && path[j] != '/'
        invariant i <= j <= |path| && forall x :: i <= x < j ==> path[x] != '/'
      {
        j := j + 1;
      }
    }

    method ScanSlashes(path: string, i: nat) returns (k: nat)
      requires i <= |path|
      ensures i <= k <= |path| && (forall x :: i <= x < k ==> path[x] == '/') && (k < |path| ==> path[k] != '/')
    {
      k := i;
      while k < |path| && path[k] == '/'
        invariant i <= k <= |path| && forall x :: i <= x < k ==> path[x] == '/'
      {
        k := k + 1;
      }
    }

    /**
     * dir_namev: what the recursion over the components finds, with one more reference on the
     * directory on success and none on any failure.
     */
    method DirNamev(path: string, base: Option<VnId>, cwd: VnId) returns (r: Result<Place>)
      modifies this
      ensures r == ResolvePath(fs, Start(fs, path, base, cwd), path)
      ensures refs == if r.Ok? then Plus(old(refs), r.value.dir) else old(refs)
      ensures r.Ok? ==> refs == old(refs) + multiset{r.value.dir}
    {
      if |path| == 0 {
        return Err(EINVAL);
      }
      var cur: VnId := if path[0] == '/' then fs.root else if base.Some? then base.value else cwd;
      Vref(cur);
      var i := ScanSlashes(path, 0);
      SkipAll(path, i);
      if i == |path| {
        return Ok(Place(cur, "."));
      }
      r := Walk(path, i, cur, old(refs));
    }

    /** One round of the loop of dir_namev: looks up the component at `i` and skips behind it. */
    method LookNext(path: string, i: nat, dir: VnId) returns (name: string, step: Result<VnId>, k: nat)
      requires i < |path| && path[i] != '/'
      modifies this
      ensures i < k <= |path| && (k < |path| ==> path[k] != '/')
      ensures refs == if step.Ok? then Plus(old(refs), step.value) else old(refs)
      ensures Advances(fs, path, i, dir, name, step, k)
    {
      hide Resolve, Components, Lookup;
      var j := ScanName(path, i);
      name := path[i..j];
      if |name| > fs.nameLen {
        step := Err(ENAMETOOLONG);
      } else {
        step := LookupRef(dir, name);
      }
      k := ScanSlashes(path, j);
      SkipAfter(path, j, k);
      ResolveNext(fs, dir, path, i, j, EndsInSlash(path));
    }

    /** The loop of dir_namev, from position `i0` in the directory `start`, on which it has a reference. */
    method Walk(path: string, i0: nat, start: VnId, ghost others: multiset<VnId>) returns (r: Result<Place>)
      requires i0 < |path| && path[i0] != '/' && refs == Plus(others, start)
      modifies this
      ensures r == Resolve(fs, start, Components(path[i0..]), EndsInSlash(path))
      ensures refs == if r.Ok? then Plus(others, r.value.dir) else others
    {
      hide Resolve, Components, Lookup, Last, Plus, Minus, Holds;
      ghost var found := Resolve(fs, start, Components(path[i0..]), EndsInSlash(path));
      var i, cur := i0, start;
      var prev, name, step;
      while true
        invariant i < |path| && path[i] != '/' && refs == Plus(others, cur)
        invariant Resolve(fs, cur, Components(path[i..]), EndsInSlash(path)) == found
        decreases |path| - i
      {
        prev := cur;
        name, step, i := LookNext(path, i, prev);
        if step.Ok? {
          cur := step.value;
        } else if step.error != ENOENT {
          GiveBack(others, prev, prev);
          Vput(prev);
          return Err(step.error);
        }
        if !(i < |path| && step.Ok?) {
          break;
        }
        GiveBack(others, prev, cur);
        Vput(prev);
      }
      r := Finish(path, i, prev, cur, name, step, others);
    }

    /**
     * open_namev; `creat` is O_CREAT, `write` says O_WRONLY or O_RDWR, and `created` is what the
     * create operation answers if it is called. Only a vnode returned has one more reference.
     */
    method OpenNamev(path: string, creat: bool, write: bool, base: Option<VnId>, cwd: VnId, created: Result<VnId>)
      returns (r: Result<VnId>)
      requires fs.root in fs.dirs
      modifies this
      ensures r == OpenPath(fs, Start(fs, path, base, cwd), path, creat, write, created)
      ensures refs == if r.Ok? then old(refs) + multiset{r.value} else old(refs)
    {
      assert forall v :: Plus(refs, v) == refs + multiset{v};
      hide Plus, Minus, Holds, ResolvePath;
      var where := DirNamev(path, base, cwd);
      if where.Err? {
        return Err(where.error);
      }
      var dir, name := where.value.dir, where.value.name;
      DirIsDir(fs, path, base, cwd);
      GiveBack(old(refs), dir, dir);
      r := LookupRef(dir, name);
      if r.Err? {
        assert creat ==> dir in fs.dirs;
        if creat && r.error == ENOENT {
          r := created;
          if r.Ok? {
            Vref(r.value);
            GiveBack(old(refs), dir, r.value);
          }
          Vput(dir);
          return;
        }
        Vput(dir);
        return;
      }
      var v := r.value;
      GiveBack(old(refs), dir, v);
      if write && v in fs.dirs {
        Vput(v);
        Vput(dir);
        return Err(EISDIR);
      }
      Vput(dir);
    }

    /** The end of dir_namev, after the loop. */
    method Finish(path: string, i: nat, prev: VnId, cur: VnId, name: string, step: Result<VnId>,
                  ghost others: multiset<VnId>)
      returns (r: Result<Place>)
      requires 0 < i <= |path| && step == Lookup(fs, prev, name)
      requires if step.Ok? then cur == step.value && i == |path| else cur == prev && step.error == ENOENT
      requires refs == if step.Ok? then Plus(Plus(others, prev), cur) else Plus(others, prev)
      modifies this
      ensures r == Last(fs, prev, name, i < |path|, EndsInSlash(path))
      ensures refs == if r.Ok? then Plus(others, r.value.dir) else others
    {
      hide Plus, Minus, Holds;
      GiveBack(others, prev, cur);
      if path[i - 1] == '/' {
        if cur !in fs.dirs {
          Vput(prev);
          Vput(cur);
          return Err(ENOTDIR);
        }
      }
      if i < |path| {
        Vput(prev);
        return Err(ENOENT);
      } else if step.Ok? {
        Vput(cur);
      }
      return Ok(Place(prev, name));
    }
  }

  /** What the round that looks up the component at `i` of `dir` leaves of the resolution. */
  ghost predicate Advances(fs: Fs, path: string, i: nat, dir: VnId, name: string, step: Result<VnId>, k: nat)
    requires i <= |path| && k <= |path|
  {
    var found := Resolve(fs, dir, Components(path[i..]), EndsInSlash(path));
    if step.Err? && step.error != ENOENT then found == Err(step.error)
    else if step.Ok? && k < |path| then found == Resolve(fs, step.value, Components(path[k..]), EndsInSlash(path))
    else step == Lookup(fs, dir, name) && found == Last(fs, dir, name, k < |path|, EndsInSlash(path))
  }

  /** Resolution from the component [offset, end) on. */
  lemma ResolveNext(fs: Fs, dir: VnId, path: string, offset: nat, end: nat, slash: bool)
    requires offset < end <= |path| && (forall x :: offset <= x < end ==> path[x] != '/')
    requires (end < |path| ==> path[end] == '/')
    ensures var name, rest := path[offset..end], Components(path[end..]);
      Resolve(fs, dir, Components(path[offset..]), slash) ==
        if |name| > fs.nameLen then Err(ENAMETOOLONG)
        else if Lookup(fs, dir, name).Ok? && rest != [] then Resolve(fs, Lookup(fs, dir, name).value, rest, slash)
        else Last(fs, dir, name, rest != [], slash)
  {
    NextComponent(path, offset, end);
    var rest := Components(path[end..]);
    assert ([path[offset..end]] + rest)[1..] == rest;
  }

  lemma SkipAfter(path: string, end: nat, i: nat)
    requires end <= i <= |path| && (forall x :: end <= x < i ==> path[x] == '/') && (i < |path| ==> path[i] != '/')
    ensures Components(path[end..]) == Components(path[i..])
    ensures Components(path[end..]) == [] <==> i == |path|
  {
    SkipAll(path[end..], i - end);
    assert path[end..][i - end..] == path[i..];
    AtEnd(path, i);
  }

  /** What is left of the resolution at the last component looked up; `more` says others follow. */
  function Last(fs: Fs, dir: VnId, name: string, more: bool, slash: bool): (r: Result<Place>) {
    match Lookup(fs, dir, name)
    case Err(e) => if e == ENOENT && !more then Ok(Place(dir, name)) else Err(e)
    case Ok(v) => if slash && v !in fs.dirs then Err(ENOTDIR) else Ok(Place(dir, name))
  }

  function OpenPath(fs: Fs, start: VnId, path: string, creat: bool, write: bool,
                    created: Result<VnId>): (r: Result<VnId>) {
    match ResolvePath(fs, start, path)
    case Err(e) => Err(e)
    case Ok(p) =>
      match Lookup(fs, p.dir, p.name)
      case Err(e) => if creat && e == ENOENT then created else Err(e)
      case Ok(v) => if write && v in fs.dirs then Err(EISDIR) else Ok(v)
  }

  /** Walks down every component. */
  function WalkAll(fs: Fs, dir: VnId, names: seq<string>): (r: Result<VnId>)
    decreases |names|
  {
    if names == [] then Ok(dir)
    else if |names[0]| > fs.nameLen then Err(ENAMETOOLONG)
    else
      match Lookup(fs, dir, names[0])
      case Err(e) => Err(e)
      case Ok(v) => WalkAll(fs, v, names[1..])
  }

  /**
   * Looking the last name up in the directory found is the same as walking down every component;
   * and a failure is the failure of that walk, except for a file followed by a slash.
   */
  lemma {:induction false} SplitsWalk(fs: Fs, dir: VnId, names: seq<string>, slash: bool)
    requires names != []
    ensures var all := WalkAll(fs, dir, names);
      match Resolve(fs, dir, names, slash)
      case Ok(p) => Lookup(fs, p.dir, p.name) == all && p.name == names[|names| - 1] && p.dir in fs.dirs
      case Err(e) => all == Err(e) || (slash && e == ENOTDIR && all.Ok? && all.value !in fs.dirs)
    decreases |names|
  {
    if |names| > 1 && |names[0]| <= fs.nameLen && Lookup(fs, dir, names[0]).Ok? {
      SplitsWalk(fs, Lookup(fs, dir, names[0]).value, names[1..], slash);
    }
  }

  lemma DirIsDir(fs: Fs, path: string, base: Option<VnId>, cwd: VnId)
    requires fs.root in fs.dirs
    ensures var r := ResolvePath(fs, Start(fs, path, base, cwd), path); r.Ok? ==> r.value.dir in fs.dirs
  {
    if path != [] && Components(path) != [] {
      SplitsWalk(fs, Start(fs, path, base, cwd), Components(path), EndsInSlash(path));
    }
  }

  function Start(fs: Fs, path: string, base: Option<VnId>, cwd: VnId): (v: VnId) {
    if path != [] && path[0] == '/' then fs.root else if base.Some? then base.value else cwd
  }

  lemma AtEnd(path: string, i: nat)
    requires i <= |path| && (i < |path| ==> path[i] != '/')
    ensures Components(path[i..]) == [] <==> i == |path|
  {
  }
}
