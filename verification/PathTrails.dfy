/**
 * What a pathname means, said without the code's own parsing and lookup: a path is names between
 * slashes, and resolving it follows entries from directory to directory.
 */
module PathTrails {
  import opened Lists
  import opened PathWalk

  // ---------------------------------------------------------------------------------------------
  // Spelling

  predicate Slashes(s: string) { forall i :: 0 <= i < |s| ==> s[i] == '/' }

  predicate IsName(s: string) { s != [] && forall i :: 0 <= i < |s| ==> s[i] != '/' }

  /** Names with slashes before, after and, without fail, between them. */
  predicate Spelling(seps: seq<string>, names: seq<string>) {
    && |seps| == |names| + 1
    && (forall i :: 0 <= i < |seps| ==> Slashes(seps[i]))
    && (forall i :: 0 < i < |names| ==> seps[i] != [])
    && (forall i :: 0 <= i < |names| ==> IsName(names[i]))
  }

  function Join(seps: seq<string>, names: seq<string>): (path: string)
    requires |seps| == |names| + 1
  {
    if names == [] then seps[0] else seps[0] + names[0] + Join(seps[1..], names[1..])
  }

  lemma SpellingRest(seps: seq<string>, names: seq<string>)
    requires Spelling(seps, names) && names != []
    ensures Spelling(seps[1..], names[1..])
    ensures var rest := Join(seps[1..], names[1..]); rest != [] ==> rest[0] == '/'
  {
  }

  /** The components of a path are the names it was spelled with. */
  lemma {:induction false} ComponentsAreNames(seps: seq<string>, names: seq<string>)
    requires Spelling(seps, names)
    ensures Components(Join(seps, names)) == names
    decreases |names|
  {
    if names == [] {
      SkipAll(seps[0], |seps[0]|);
    } else {
      SpellingRest(seps, names);
      ComponentsAreNames(seps[1..], names[1..]);
      hide Components, Join, Spelling;
      FirstName(seps[0], names[0], Join(seps[1..], names[1..]));
    }
  }

  lemma FirstName(sep: string, name: string, rest: string)
    requires Slashes(sep) && IsName(name) && (rest != [] ==> rest[0] == '/')
    ensures Components(sep + name + rest) == [name] + Components(rest)
  {
    hide Components;
    var path, tail := sep + name + rest, name + rest;
    SkipAll(path, |sep|);
    assert path[|sep|..] == tail;
    NextComponent(tail, 0, |name|);
    assert tail[0..] == tail && tail[0..|name|] == name && tail[|name|..] == rest;
  }

  /** The path ends in a slash exactly when slashes follow the last name. */
  lemma {:induction false} EndsInSep(seps: seq<string>, names: seq<string>)
    requires Spelling(seps, names) && names != []
    ensures EndsInSlash(Join(seps, names)) <==> seps[|names|] != []
    decreases |names|
  {
    SpellingRest(seps, names);
    var rest := Join(seps[1..], names[1..]);
    if |names| == 1 {
      assert Join(seps, names) == seps[0] + names[0] + seps[1];
    } else {
      EndsInSep(seps[1..], names[1..]);
      assert rest != [];
    }
  }

  /** Every path can be spelled. */
  lemma {:induction false} Spell(path: string) returns (seps: seq<string>, names: seq<string>)
    ensures Spelling(seps, names) && Join(seps, names) == path
    decreases |path|
  {
    var i: nat := 0;
    while i < |path| && path[i] == '/'
      invariant i <= |path| && Slashes(path[..i])
    {
      i := i + 1;
    }
    if i == |path| {
      assert path[..i] == path;
      return [path], [];
    }
    var j: nat := i;
    while j < |path| && path[j] != '/'
      invariant i <= j <= |path| && forall x :: i <= x < j ==> path[x] != '/'
    {
      j := j + 1;
    }
    var seps', names' := Spell(path[j..]);
    seps, names := [path[..i]] + seps', [path[i..j]] + names';
    assert path == path[..i] + path[i..j] + path[j..];
    assert j < |path| ==> path[j..][0] == path[j];
    SpellOn(path[..i], path[i..j], seps', names');
  }

  /** A spelling that starts with a slash, or is empty, can follow a name. */
  lemma SpellOn(sep: string, name: string, seps: seq<string>, names: seq<string>)
    requires Slashes(sep) && IsName(name) && Spelling(seps, names)
    requires Join(seps, names) != [] ==> Join(seps, names)[0] == '/'
    ensures Spelling([sep] + seps, [name] + names)
    ensures Join([sep] + seps, [name] + names) == sep + name + Join(seps, names)
  {
    var seps', names' := [sep] + seps, [name] + names;
    assert seps'[1..] == seps && names'[1..] == names;
    if names != [] {
      var rest := Join(seps[1..], names[1..]);
      assert Join(seps, names) == seps[0] + names[0] + rest;
      assert (seps[0] + names[0])[0] == Join(seps, names)[0];
    }
    forall i | 0 < i < |names'|
      ensures seps'[i] != []
    {
      assert seps'[i] == seps[i - 1];
    }
  }

  // ---------------------------------------------------------------------------------------------
  // Trails

  /** `name` leads from the directory `dir` to `v`. */
  ghost predicate Leads(fs: Fs, dir: VnId, name: string, v: VnId) {
    dir in fs.dirs && |name| <= fs.nameLen && (dir, name) in fs.entries && fs.entries[(dir, name)] == Ok(v)
  }

  /** `name` cannot be followed from `dir`, for the reason `e`. */
  ghost predicate Fails(fs: Fs, dir: VnId, name: string, e: Errno) {
    if |name| > fs.nameLen then e == ENAMETOOLONG
    else if dir !in fs.dirs then e == ENOTDIR
    else if (dir, name) !in fs.entries then e == ENOENT
    else fs.entries[(dir, name)] == Err(e)
  }

  /** The names lead from d[0] over d[1] and so on to the last. */
  ghost predicate Trail(fs: Fs, d: seq<VnId>, names: seq<string>) {
    |d| == |names| + 1 && forall i :: 0 <= i < |names| ==> Leads(fs, d[i], names[i], d[i + 1])
  }

  lemma TrailRest(fs: Fs, d: seq<VnId>, names: seq<string>)
    requires Trail(fs, d, names) && names != []
    ensures Lookup(fs, d[0], names[0]) == Ok(d[1]) && |names[0]| <= fs.nameLen && Trail(fs, d[1..], names[1..])
  {
    assert Leads(fs, d[0], names[0], d[1]);
  }

  /** A trail that goes all the way is resolved to its last step. */
  lemma {:induction false} TrailResolves(fs: Fs, d: seq<VnId>, names: seq<string>, slash: bool)
    requires Trail(fs, d, names) && names != []
    ensures var n := |names|;
      Resolve(fs, d[0], names, slash) ==
        if slash && d[n] !in fs.dirs then Err(ENOTDIR) else Ok(Place(d[n - 1], names[n - 1]))
    decreases |names|
  {
    TrailRest(fs, d, names);
    if |names| > 1 {
      TrailResolves(fs, d[1..], names[1..], slash);
    }
  }

  /** A trail that breaks off at name `k` gives the reason, unless only the last name is missing. */
  lemma {:induction false} BreakResolves(fs: Fs, d: seq<VnId>, names: seq<string>, k: nat, e: Errno, slash: bool)
    requires k < |names| && Trail(fs, d, names[..k]) && Fails(fs, d[k], names[k], e)
    ensures Resolve(fs, d[0], names, slash) ==
      if e == ENOENT && k == |names| - 1 then Ok(Place(d[k], names[k])) else Err(e)
    decreases |names|
  {
    if k > 0 {
      TrailRest(fs, d, names[..k]);
      assert names[..k][0] == names[0] && names[..k][1..] == names[1..][..k - 1];
      BreakResolves(fs, d[1..], names[1..], k - 1, e, slash);
    }
  }

  /** From every start the names lead all the way, or break off at one of them. */
  lemma {:induction false} TrailOrBreak(fs: Fs, start: VnId, names: seq<string>) returns (d: seq<VnId>, e: Errno)
    ensures d != [] && d[0] == start && |d| <= |names| + 1 && Trail(fs, d, names[..|d| - 1])
    ensures |d| <= |names| ==> Fails(fs, d[|d| - 1], names[|d| - 1], e)
    decreases |names|
  {
    e := ENOENT;
    if names == [] {
      d := [start];
    } else if |names[0]| > fs.nameLen {
      d, e := [start], ENAMETOOLONG;
    } else if start !in fs.dirs {
      d, e := [start], ENOTDIR;
    } else if (start, names[0]) !in fs.entries {
      d := [start];
    } else {
      match fs.entries[(start, names[0])]
      case Err(e') => d, e := [start], e';
      case Ok(v) =>
        var d', e' := TrailOrBreak(fs, v, names[1..]);
        d, e := [start] + d', e';
        var k := |d'| - 1;
        assert names[..k + 1][1..] == names[1..][..k];
        forall i | 0 <= i < k + 1
          ensures Leads(fs, d[i], names[..k + 1][i], d[i + 1])
        {
          if i > 0 { assert Leads(fs, d'[i - 1], names[1..][..k][i - 1], d'[i]); }
        }
    }
  }

  // ---------------------------------------------------------------------------------------------
  // dir_namev and open_namev

  /** Where resolution starts. */
  ghost predicate StartsAt(fs: Fs, path: string, base: Option<VnId>, cwd: VnId, v: VnId) {
    && (path != [] && path[0] == '/' ==> v == fs.root)
    && (path != [] && path[0] != '/' && base.Some? ==> v == base.value)
    && (path != [] && path[0] != '/' && base.None? ==> v == cwd)
  }

  /** dir_namev of a path whose names lead all the way from where it starts. */
  lemma DirFinds(fs: Fs, seps: seq<string>, names: seq<string>, base: Option<VnId>, cwd: VnId, d: seq<VnId>)
    requires Spelling(seps, names) && names != [] && Trail(fs, d, names)
    requires StartsAt(fs, Join(seps, names), base, cwd, d[0])
    ensures var path, n := Join(seps, names), |names|;
      ResolvePath(fs, Start(fs, path, base, cwd), path) ==
        if seps[n] != [] && d[n] !in fs.dirs then Err(ENOTDIR) else Ok(Place(d[n - 1], names[n - 1]))
  {
    ComponentsAreNames(seps, names);
    EndsInSep(seps, names);
    TrailResolves(fs, d, names, seps[|names|] != []);
  }

  /** dir_namev of a path whose names break off at name `k`. */
  lemma DirBreaks(fs: Fs, seps: seq<string>, names: seq<string>, base: Option<VnId>, cwd: VnId, d: seq<VnId>, k: nat,
                  e: Errno)
    requires Spelling(seps, names) && k < |names| && Trail(fs, d, names[..k]) && Fails(fs, d[k], names[k], e)
    requires StartsAt(fs, Join(seps, names), base, cwd, d[0])
    ensures var path := Join(seps, names);
      ResolvePath(fs, Start(fs, path, base, cwd), path) ==
        if e == ENOENT && k == |names| - 1 then Ok(Place(d[k], names[k])) else Err(e)
  {
    ComponentsAreNames(seps, names);
    EndsInSep(seps, names);
    BreakResolves(fs, d, names, k, e, seps[|names|] != []);
  }

  /** dir_namev of a path without names. */
  lemma DirOfSlashes(fs: Fs, path: string, base: Option<VnId>, cwd: VnId)
    requires Slashes(path)
    ensures ResolvePath(fs, Start(fs, path, base, cwd), path) ==
      if path == [] then Err(EINVAL) else Ok(Place(fs.root, "."))
  {
    ComponentsAreNames([path], []);
  }

  /** open_namev of a path whose names lead all the way. */
  lemma OpenFinds(fs: Fs, seps: seq<string>, names: seq<string>, base: Option<VnId>, cwd: VnId, d: seq<VnId>,
                  creat: bool, write: bool, created: Result<VnId>)
    requires Spelling(seps, names) && names != [] && Trail(fs, d, names)
    requires StartsAt(fs, Join(seps, names), base, cwd, d[0])
    ensures var path, v := Join(seps, names), d[|names|];
      OpenPath(fs, Start(fs, path, base, cwd), path, creat, write, created) ==
        if seps[|names|] != [] && v !in fs.dirs then Err(ENOTDIR)
        else if write && v in fs.dirs then Err(EISDIR)
        else Ok(v)
  {
    hide ResolvePath, Start;
    DirFinds(fs, seps, names, base, cwd, d);
    var n := |names|;
    assert Leads(fs, d[n - 1], names[n - 1], d[n]);
  }

  /** open_namev of a path without names looks for "." in the root. */
  lemma OpenOfSlashes(fs: Fs, path: string, base: Option<VnId>, cwd: VnId, v: VnId, creat: bool, write: bool,
                      created: Result<VnId>)
    requires Slashes(path) && fs.root in fs.dirs && (fs.root, ".") in fs.entries && fs.entries[(fs.root, ".")] == Ok(v)
    ensures OpenPath(fs, Start(fs, path, base, cwd), path, creat, write, created) ==
      if path == [] then Err(EINVAL) else if write && v in fs.dirs then Err(EISDIR) else Ok(v)
  {
    hide ResolvePath, Start;
    DirOfSlashes(fs, path, base, cwd);
  }

  /** open_namev of a path whose names break off: only a missing last name can be created. */
  lemma OpenBreaks(fs: Fs, seps: seq<string>, names: seq<string>, base: Option<VnId>, cwd: VnId, d: seq<VnId>, k: nat,
                   e: Errno, creat: bool, write: bool, created: Result<VnId>)
    requires Spelling(seps, names) && k < |names| && Trail(fs, d, names[..k]) && Fails(fs, d[k], names[k], e)
    requires StartsAt(fs, Join(seps, names), base, cwd, d[0])
    ensures var path := Join(seps, names);
      OpenPath(fs, Start(fs, path, base, cwd), path, creat, write, created) ==
        if e == ENOENT && k == |names| - 1 && creat then created else Err(e)
  {
    hide ResolvePath, Start;
    DirBreaks(fs, seps, names, base, cwd, d, k, e);
  }
}
