/** Recursive directory creation over a POSIX-like tree without symbolic links. Paths are
    resolved level by level, `.` and `..` included; the kernel may refuse to create some
    paths, and `stat` reports the file type by its mode bits. */
module MakeDirectories {
  import opened Options
  import opened TopicTokens
  import opened TopicFilters

  datatype Kind = Directory | Regular | BlockDevice | CharacterDevice | Fifo | Socket

  /** The S_IFMT part of `st_mode`. */
  function ModeBits(kind: Kind): bv16 {
    match kind
    case Directory => 0x4000
    case Regular => 0x8000
    case BlockDevice => 0x6000
    case CharacterDevice => 0x2000
    case Fifo => 0x1000
    case Socket => 0xC000
  }

  /** The code's test of the S_IFDIR bit, which block devices and sockets pass too. */
  predicate LooksLikeFolder(kind: Kind)
    ensures LooksLikeFolder(kind) <==> kind in {Directory, BlockDevice, Socket}
  {
    ModeBits(kind) & 0x4000 != 0
  }

  /** Names from the root down. */
  type Path = seq<string>

  function Parent(p: Path): Path {
    if p == [] then [] else p[..|p| - 1]
  }

  /** Everything but the root sits in a directory. */
  ghost predicate Tree(fs: map<Path, Kind>) {
    && [] in fs && fs[[]].Directory?
    && forall p {:trigger Parent(p)} :: p in fs && p != [] ==> Parent(p) in fs && fs[Parent(p)].Directory?
  }

  /** Path resolution: where `levels` lead from directory `start`, if they lead anywhere. */
  function Walk(fs: map<Path, Kind>, start: Path, levels: seq<string>): (r: Option<Path>)
    ensures r.Some? && levels != [] && start in fs ==> Walk(fs, start, levels[..|levels| - 1]).Some?
  {
    if levels == [] then Some(start)
    else
      var n := |levels| - 1;
      var at := Walk(fs, start, levels[..n]);
      if at.None? || at.value !in fs || !fs[at.value].Directory? then None
      else if levels[n] == "." then at
      else if levels[n] == ".." then Some(Parent(at.value))
      else if at.value + [levels[n]] in fs then Some(at.value + [levels[n]])
      else None
  }

  /** `stat` finds something at `levels` that passes the folder test. */
  predicate FolderAt(fs: map<Path, Kind>, start: Path, levels: seq<string>) {
    var at := Walk(fs, start, levels);
    at.Some? && at.value in fs && LooksLikeFolder(fs[at.value])
  }

  /** The path that `mkdir` would create for `levels`, unless it must fail. */
  function Creatable(fs: map<Path, Kind>, start: Path, refused: set<Path>, levels: seq<string>): Option<Path> {
    if levels == [] then None
    else
      var n := |levels| - 1;
      var at := Walk(fs, start, levels[..n]);
      if at.None? || at.value !in fs || !fs[at.value].Directory? || levels[n] == "." || levels[n] == ".." then None
      else
        var p := at.value + [levels[n]];
        if p in fs || p in refused then None else Some(p)
  }

  // ---- Path strings ----

  function NonEmpty(names: seq<string>): (r: seq<string>)
    ensures forall i :: 0 <= i < |r| ==> r[i] != ""
  {
    if names == [] then []
    else (if names[0] == "" then [] else [names[0]]) + NonEmpty(names[1..])
  }

  /** The names in a path string: superfluous slashes do not count. */
  function Names(path: string): seq<string> {
    NonEmpty(Split(path, '/'))
  }

  function Start(path: string, cwd: Path): Path {
    if path != "" && path[0] == '/' then [] else cwd
  }

  lemma NonEmptyCons(name: string, names: seq<string>)
    ensures NonEmpty([name] + names) == (if name == "" then [] else [name]) + NonEmpty(names)
  {
    assert ([name] + names)[1..] == names;
  }

  lemma {:induction false} NonEmptyIdentity(a: seq<string>)
    requires forall i :: 0 <= i < |a| ==> a[i] != ""
    ensures NonEmpty(a) == a
  {
    if a != [] {
      NonEmptyIdentity(a[1..]);
    }
  }

  predicate IsName(name: string) {
    name != "" && '/' !in name
  }

  lemma FirstCharacter(done: seq<string>, level: string)
    requires IsName(level) && forall i :: 0 <= i < |done| ==> IsName(done[i])
    ensures StemText(done) + level != "" && (StemText(done) + level)[0] != '/'
  {
    if done == [] {
      assert StemText(done) + level == level;
    } else {
      assert (StemText(done) + level)[0] == done[0][0];
    }
  }

  lemma PlainText(done: seq<string>, level: string)
    requires IsName(level) && forall i :: 0 <= i < |done| ==> IsName(done[i])
    ensures Names(StemText(done) + level) == done + [level]
  {
    JoinOfStem(done, level);
    NamesAndOne(done, level);
    CleanLevels(done + [level]);
  }

  lemma NamesAndOne(done: seq<string>, level: string)
    requires IsName(level) && forall i :: 0 <= i < |done| ==> IsName(done[i])
    ensures forall i :: 0 <= i < |done + [level]| ==> IsName((done + [level])[i])
  {
  }

  lemma CleanLevels(levels: seq<string>)
    requires levels != [] && forall i :: 0 <= i < |levels| ==> IsName(levels[i])
    ensures Names(Join(levels, '/')) == levels
  {
    SplitOfJoin(levels, '/');
    NonEmptyIdentity(levels);
  }

  lemma LeadingSlash(text: string)
    ensures Names("/" + text) == Names(text)
  {
    assert "/" + text == [] + ['/'] + text;
    SplitOfCons([], '/', text);
    NonEmptyCons("", Split(text, '/'));
  }

  /** The text built for the levels so far: the leading slash, if any, and the stem. */
  function Text(absolute: bool, done: seq<string>): string {
    if absolute then "/" + StemText(done) else StemText(done)
  }

  /** With the next name appended it names exactly the levels up to that one. */
  lemma LevelText(absolute: bool, names: seq<string>, m: nat)
    requires m < |names| && forall i :: 0 <= i < |names| ==> IsName(names[i])
    ensures var text := Text(absolute, names[..m]) + names[m];
            Names(text) == names[..m + 1] && text != "" && (text[0] == '/' <==> absolute)
  {
    var done, level := names[..m], names[m];
    var text, plain := Text(absolute, done) + level, StemText(done) + level;
    PlainText(done, level);
    FirstCharacter(done, level);
    assert names[..m + 1] == done + [level];
    if absolute {
      assert text == "/" + plain;
      LeadingSlash(plain);
    }
  }

  lemma {:induction false} JoinOfStem(stem: seq<string>, last: string)
    ensures Join(stem + [last], '/') == StemText(stem) + last
  {
    if stem != [] {
      JoinOfStem(stem[1..], last);
      assert (stem + [last])[1..] == stem[1..] + [last];
    }
  }

  lemma {:induction false} StemTextAppend(stem: seq<string>, last: string)
    ensures StemText(stem + [last]) == StemText(stem) + last + "/"
  {
    if stem != [] {
      StemTextAppend(stem[1..], last);
      assert (stem + [last])[1..] == stem[1..] + [last];
    } else {
      assert stem + [last] == [last];
    }
  }

  lemma TextGrows(absolute: bool, names: seq<string>, m: nat)
    requires m < |names|
    ensures Text(absolute, names[..m + 1]) == Text(absolute, names[..m]) + names[m] + "/"
  {
    StemTextAppend(names[..m], names[m]);
    assert names[..m + 1] == names[..m] + [names[m]];
    if absolute {
      var stem := StemText(names[..m]);
      assert "/" + (stem + names[m] + "/") == ("/" + stem) + names[m] + "/";
    }
  }

  lemma {:induction false} NamesAreNames(pieces: seq<string>)
    requires forall i :: 0 <= i < |pieces| ==> '/' !in pieces[i]
    ensures forall i :: 0 <= i < |NonEmpty(pieces)| ==> IsName(NonEmpty(pieces)[i])
  {
    if pieces != [] {
      NamesAreNames(pieces[1..]);
    }
  }

  // ---- Growing the tree ----

  predicate Extends(fs: map<Path, Kind>, fs': map<Path, Kind>) {
    forall p :: p in fs ==> p in fs' && fs'[p] == fs[p]
  }

  lemma {:induction false} WalkSurvives(fs: map<Path, Kind>, fs': map<Path, Kind>, start: Path, levels: seq<string>)
    requires Extends(fs, fs')
    ensures Walk(fs, start, levels).Some? ==> Walk(fs', start, levels) == Walk(fs, start, levels)
  {
    if levels != [] {
      WalkSurvives(fs, fs', start, levels[..|levels| - 1]);
    }
  }

  lemma {:induction false} WalkStaysInTree(fs: map<Path, Kind>, start: Path, levels: seq<string>)
    requires Tree(fs) && start in fs
    ensures Walk(fs, start, levels).Some? ==> Walk(fs, start, levels).value in fs
  {
    if levels != [] {
      WalkStaysInTree(fs, start, levels[..|levels| - 1]);
    }
  }

  /** The places passed on the way along the first `m` levels. */
  function Trail(fs: map<Path, Kind>, start: Path, levels: seq<string>, m: nat): seq<Path>
    requires m <= |levels| && Walk(fs, start, levels[..m]).Some?
    requires start in fs
  {
    if m == 0 then []
    else
      assert levels[..m][..m - 1] == levels[..m - 1];
      Trail(fs, start, levels, m - 1) + [Walk(fs, start, levels[..m]).value]
  }

  /** The places of a trail that were not there before, each once, in the order passed. */
  function NewPlaces(before: map<Path, Kind>, trail: seq<Path>): seq<Path> {
    if trail == [] then []
    else
      var earlier := NewPlaces(before, trail[..|trail| - 1]);
      var last := trail[|trail| - 1];
      if last in before || last in earlier then earlier else earlier + [last]
  }

  lemma TrailNext(fs: map<Path, Kind>, start: Path, levels: seq<string>, m: nat)
    requires m < |levels| && start in fs && Walk(fs, start, levels[..m + 1]).Some?
    ensures Walk(fs, start, levels[..m]).Some?
    ensures Trail(fs, start, levels, m + 1) == Trail(fs, start, levels, m) + [Walk(fs, start, levels[..m + 1]).value]
  {
    assert levels[..m + 1][..m] == levels[..m];
  }

  lemma NewPlacesNext(before: map<Path, Kind>, trail: seq<Path>, last: Path)
    ensures var earlier := NewPlaces(before, trail);
            NewPlaces(before, trail + [last]) == if last in before || last in earlier then earlier else earlier + [last]
  {
    assert (trail + [last])[..|trail|] == trail;
  }

  lemma {:induction false} TrailSurvives(fs: map<Path, Kind>, fs': map<Path, Kind>, start: Path, levels: seq<string>,
                                         m: nat)
    requires m <= |levels| && start in fs && Walk(fs, start, levels[..m]).Some?
    requires Extends(fs, fs')
    ensures Walk(fs', start, levels[..m]) == Walk(fs, start, levels[..m])
    ensures Trail(fs', start, levels, m) == Trail(fs, start, levels, m)
  {
    WalkSurvives(fs, fs', start, levels[..m]);
    if m > 0 {
      TrailNext(fs, start, levels, m - 1);
      TrailSurvives(fs, fs', start, levels, m - 1);
    }
  }

  /** The tree after creating directories one after another. */
  function Grow(before: map<Path, Kind>, created: seq<Path>): map<Path, Kind> {
    if created == [] then before
    else Grow(before, created[..|created| - 1])[created[|created| - 1] := Directory]
  }

  /** A path that is not there yet, in a directory that is. */
  predicate CanAdd(fs: map<Path, Kind>, p: Path) {
    p != [] && p !in fs && Parent(p) in fs && fs[Parent(p)].Directory?
  }

  /** Every creation is of a new path in a directory that was there by then: parents first. */
  predicate ParentsFirst(before: map<Path, Kind>, created: seq<Path>) {
    created == [] ||
    var n := |created| - 1;
    ParentsFirst(before, created[..n]) && CanAdd(Grow(before, created[..n]), created[n])
  }

  lemma GrowNext(before: map<Path, Kind>, created: seq<Path>, p: Path)
    ensures Grow(before, created + [p]) == Grow(before, created)[p := Directory]
    ensures ParentsFirst(before, created + [p]) <==> ParentsFirst(before, created) && CanAdd(Grow(before, created), p)
  {
    assert (created + [p])[..|created|] == created;
  }

  lemma TreeGrows(fs: map<Path, Kind>, p: Path)
    requires Tree(fs) && CanAdd(fs, p)
    ensures Tree(fs[p := Directory]) && Extends(fs, fs[p := Directory])
  {
  }

  /** Creating parents first keeps the tree closed under parents, touches nothing that was
      there, and adds the created paths and nothing else, all of them directories. */
  lemma {:induction false} GrownTree(before: map<Path, Kind>, created: seq<Path>)
    requires Tree(before) && ParentsFirst(before, created)
    ensures var after := Grow(before, created);
            && Tree(after) && Extends(before, after)
            && (forall p :: p in after <==> p in before || p in created)
            && (forall p :: p in created ==> p !in before && after[p].Directory?)
  {
    if created != [] {
      var n := |created| - 1;
      var fewer, p := created[..n], created[n];
      GrownTree(before, fewer);
      TreeGrows(Grow(before, fewer), p);
      assert forall q :: q in created <==> q in fewer || q == p by {
        assert created == fewer + [p];
      }
    }
  }

  // ---- The algorithm ----

  datatype Made = Made(fs: map<Path, Kind>, created: seq<Path>)

  /** One level: nothing to do when a folder is found there, else create it if that can be. */
  function LevelMade(made: Made, start: Path, refused: set<Path>, levels: seq<string>): Option<Made> {
    if FolderAt(made.fs, start, levels) then Some(made)
    else
      var p := Creatable(made.fs, start, refused, levels);
      if p.None? then None else Some(Made(made.fs[p.value := Directory], made.created + [p.value]))
  }

  /** What the first `m` levels leave behind, or nothing when one of them cannot be made. */
  function MadeLevels(before: map<Path, Kind>, start: Path, refused: set<Path>, names: seq<string>,
                      m: nat): Option<Made>
    requires m <= |names|
  {
    if m == 0 then Some(Made(before, []))
    else
      var made := MadeLevels(before, start, refused, names, m - 1);
      if made.None? then None else LevelMade(made.value, start, refused, names[..m])
  }

  /** What one `getline` takes off the path. */
  lemma NextLevel(rest: string)
    requires rest != ""
    ensures var pos := IndexOf(rest, '/');
            var level, tail := rest[..pos], if pos < |rest| then rest[pos + 1..] else "";
            Names(rest) == (if level == "" then [] else [level]) + Names(tail)
  {
    var pos := IndexOf(rest, '/');
    if pos < |rest| {
      SplitAtFirst(rest, '/');
      NonEmptyCons(rest[..pos], Split(rest[pos + 1..], '/'));
    } else {
      assert rest[..pos] == rest;
      SplitWithoutDelimiter(rest, '/');
    }
  }

  /** What is left of the path after its first piece. */
  function AfterPiece(rest: string): string {
    var pos := IndexOf(rest, '/');
    if pos < |rest| then rest[pos + 1..] else ""
  }

  /** An empty piece names nothing; any other is the next name of the path. */
  lemma LevelTaken(names: seq<string>, m: nat, rest: string)
    requires rest != "" && m <= |names| && Names(rest) == names[m..]
    ensures |AfterPiece(rest)| < |rest|
    ensures var level := rest[..IndexOf(rest, '/')];
            if level == "" then Names(AfterPiece(rest)) == names[m..]
            else m < |names| && level == names[m] && Names(AfterPiece(rest)) == names[m + 1..]
  {
    NextLevel(rest);
    var level, tail := rest[..IndexOf(rest, '/')], AfterPiece(rest);
    if level != "" {
      assert names[m..] == [level] + Names(tail);
      assert names[m..][1..] == names[m + 1..];
    }
  }

  lemma NamesAreClean(path: string)
    ensures forall i :: 0 <= i < |Names(path)| ==> IsName(Names(path)[i])
  {
    TokensAreClean(path, '/');
    NamesAreNames(Split(path, '/'));
  }

  /** The state after the first `m` levels: all are there, and exactly the places on the way
      that were missing have been created, in order. */
  ghost predicate Reached(before: map<Path, Kind>, start: Path, names: seq<string>, m: nat, fs: map<Path, Kind>,
                          created: seq<Path>) {
    && ParentsFirst(before, created) && fs == Grow(before, created)
    && m <= |names| && start in fs && Walk(fs, start, names[..m]).Some?
    && created == NewPlaces(before, Trail(fs, start, names, m))
    && (m > 0 ==> FolderAt(fs, start, names[..m]))
  }

  /** One level of the loop: append it, create it unless a folder is found there, append the
      slash. The path text stands for the first `m` of the names. */
  method EnterLevel(before: map<Path, Kind>, cwd: Path, refused: set<Path>, absolute: bool, ghost start: Path,
                    ghost names: seq<string>, ghost m: nat,
                    text: string, level: string, fs: map<Path, Kind>, created: seq<Path>)
    returns (ok: bool, text': string, fs': map<Path, Kind>, created': seq<Path>)
    requires m < |names| && level == names[m] && forall i :: 0 <= i < |names| ==> IsName(names[i])
    requires text == Text(absolute, names[..m])
    requires start == if absolute then [] else cwd
    requires MadeLevels(before, start, refused, names, m) == Some(Made(fs, created))
    ensures MadeLevels(before, start, refused, names, if ok then m + 1 else m) == Some(Made(fs', created'))
    ensures if ok then text' == Text(absolute, names[..m + 1])
            else MadeLevels(before, start, refused, names, m + 1).None?
  {
    LevelText(absolute, names, m);
    TextGrows(absolute, names, m);
    var currentLevel := text + level;
    assert Names(currentLevel) == names[..m + 1];
    ok, fs', created' := true, fs, created;
    if !FolderAt(fs, Start(currentLevel, cwd), Names(currentLevel)) {
      var p := Creatable(fs, Start(currentLevel, cwd), refused, Names(currentLevel));
      if p.None? {
        ok := false;
      } else {
        fs' := fs[p.value := Directory];
        created' := created + [p.value];
      }
    }
    text' := currentLevel + "/";
  }

  /** The loop over the pieces between slashes, for the names that the path holds. */
  method MakeLevels(before: map<Path, Kind>, cwd: Path, refused: set<Path>, absolute: bool, path: string,
                    ghost start: Path, ghost names: seq<string>)
    returns (retval: int, fs: map<Path, Kind>, created: seq<Path>, passed: nat)
    requires Names(path) == names && forall i :: 0 <= i < |names| ==> IsName(names[i])
    requires start == if absolute then [] else cwd
    ensures passed <= |names| && MadeLevels(before, start, refused, names, passed) == Some(Made(fs, created))
    ensures retval == (if passed == |names| then 0 else -1)
    ensures retval == -1 ==> MadeLevels(before, start, refused, names, passed + 1).None?
  {
    var currentLevel := if absolute then "/" else "";
    var rest := path;
    fs, created, passed := before, [], 0;
    while rest != ""
      invariant passed <= |names| && Names(rest) == names[passed..]
      invariant currentLevel == Text(absolute, names[..passed])
      invariant MadeLevels(before, start, refused, names, passed) == Some(Made(fs, created))
      decreases |rest|
    {
      var level := rest[..IndexOf(rest, '/')];
      LevelTaken(names, passed, rest);
      rest := AfterPiece(rest);
      if level == "" {
        continue;
      }
      var ok;
      ok, currentLevel, fs, created :=
        EnterLevel(before, cwd, refused, absolute, start, names, passed, currentLevel, level, fs, created);
      if !ok {
        retval := -1;
        return;
      }
      passed := passed + 1;
    }
    retval := 0;
  }

  /** A level that is there already adds nothing new to the trail. */
  lemma PassLevel(before: map<Path, Kind>, created: seq<Path>, fs: map<Path, Kind>, start: Path, names: seq<string>,
                  m: nat)
    requires Tree(before) && m < |names| && Reached(before, start, names, m, fs, created)
    requires FolderAt(fs, start, names[..m + 1])
    ensures Reached(before, start, names, m + 1, fs, created)
  {
    GrownTree(before, created);
    TrailNext(fs, start, names, m);
    NewPlacesNext(before, Trail(fs, start, names, m), Walk(fs, start, names[..m + 1]).value);
  }

  /** A level that had to be created is the next new place. */
  lemma CreateLevel(before: map<Path, Kind>, created: seq<Path>, fs: map<Path, Kind>, start: Path, refused: set<Path>,
                    names: seq<string>, m: nat)
    requires Tree(before) && m < |names| && Reached(before, start, names, m, fs, created)
    requires Creatable(fs, start, refused, names[..m + 1]).Some?
    ensures var p := Creatable(fs, start, refused, names[..m + 1]).value;
            Reached(before, start, names, m + 1, fs[p := Directory], created + [p])
  {
    assert names[..m + 1][..m] == names[..m];
    var p := Creatable(fs, start, refused, names[..m + 1]).value;
    var after := fs[p := Directory];
    assert Parent(p) == Walk(fs, start, names[..m]).value;
    GrowNext(before, created, p);
    GrownTree(before, created);
    TrailSurvives(fs, after, start, names, m);
    assert Walk(after, start, names[..m + 1]) == Some(p);
    TrailNext(after, start, names, m);
    NewPlacesNext(before, Trail(fs, start, names, m), p);
  }

  // ---- What the result means ----

  /** However far the code got: the levels passed are there, exactly the missing places on the
      way were created, parents first. */
  lemma {:induction false} MadeLevelsReached(before: map<Path, Kind>, start: Path, refused: set<Path>,
                                             names: seq<string>, m: nat)
    requires Tree(before) && start in before && m <= |names|
    requires MadeLevels(before, start, refused, names, m).Some?
    ensures var made := MadeLevels(before, start, refused, names, m).value;
            Reached(before, start, names, m, made.fs, made.created)
  {
    if m > 0 {
      MadeLevelsReached(before, start, refused, names, m - 1);
      var made := MadeLevels(before, start, refused, names, m - 1).value;
      if FolderAt(made.fs, start, names[..m]) {
        PassLevel(before, made.created, made.fs, start, names, m - 1);
      } else {
        CreateLevel(before, made.created, made.fs, start, refused, names, m - 1);
      }
    }
  }

  /** `p` is where the first `k` levels lead. */
  predicate OnTheWay(fs: map<Path, Kind>, start: Path, names: seq<string>, k: nat, p: Path) {
    0 < k <= |names| && Walk(fs, start, names[..k]) == Some(p)
  }

  /** Every path created is the place of a level passed. */
  lemma {:induction false} CreatedOnTheWay(before: map<Path, Kind>, fs: map<Path, Kind>, start: Path,
                                           names: seq<string>, m: nat, p: Path)
    returns (k: nat)
    requires m <= |names| && start in fs && Walk(fs, start, names[..m]).Some?
    requires p in NewPlaces(before, Trail(fs, start, names, m))
    ensures k <= m && OnTheWay(fs, start, names, k, p)
  {
    TrailNext(fs, start, names, m - 1);
    var last := Walk(fs, start, names[..m]).value;
    NewPlacesNext(before, Trail(fs, start, names, m - 1), last);
    if p == last {
      k := m;
    } else {
      k := CreatedOnTheWay(before, fs, start, names, m - 1, p);
    }
  }

  /** Every place of a level passed was there before or was created. */
  lemma {:induction false} WayIsThere(before: map<Path, Kind>, fs: map<Path, Kind>, start: Path, names: seq<string>,
                                      m: nat, k: nat)
    requires 0 < k <= m <= |names| && start in fs && Walk(fs, start, names[..m]).Some?
    ensures var at := Walk(fs, start, names[..k]);
            at.Some? && (at.value in before || at.value in NewPlaces(before, Trail(fs, start, names, m)))
  {
    TrailNext(fs, start, names, m - 1);
    NewPlacesNext(before, Trail(fs, start, names, m - 1), Walk(fs, start, names[..m]).value);
    if k < m {
      WayIsThere(before, fs, start, names, m - 1, k);
    }
  }

  /** A successful walk has a directory at every level but the last. */
  lemma {:induction false} AncestorsAreDirectories(fs: map<Path, Kind>, start: Path, levels: seq<string>, k: nat)
    requires Walk(fs, start, levels).Some? && k < |levels|
    ensures var at := Walk(fs, start, levels[..k]); at.Some? && at.value in fs && fs[at.value].Directory?
    decreases |levels|
  {
    var n := |levels| - 1;
    if k < n {
      AncestorsAreDirectories(fs, start, levels[..n], k);
      assert levels[..n][..k] == levels[..k];
    }
  }

  /** `p` is the place of one of the first `m` levels. */
  ghost predicate OneOfTheLevels(fs: map<Path, Kind>, start: Path, names: seq<string>, m: nat, p: Path) {
    exists k: nat :: k <= m && OnTheWay(fs, start, names, k, p)
  }

  predicate LevelIsThere(fs: map<Path, Kind>, start: Path, names: seq<string>, k: nat) {
    k <= |names| && var at := Walk(fs, start, names[..k]); at.Some? && at.value in fs
  }

  lemma CreatedAreLevels(before: map<Path, Kind>, created: seq<Path>, fs: map<Path, Kind>, start: Path,
                         names: seq<string>, m: nat)
    requires Reached(before, start, names, m, fs, created)
    ensures forall p :: p in created ==> OneOfTheLevels(fs, start, names, m, p)
  {
    forall p | p in created ensures OneOfTheLevels(fs, start, names, m, p) {
      var k := CreatedOnTheWay(before, fs, start, names, m, p);
    }
  }

  lemma LevelsAreThere(before: map<Path, Kind>, created: seq<Path>, fs: map<Path, Kind>, start: Path,
                       names: seq<string>, m: nat)
    requires Tree(before) && start in before && Reached(before, start, names, m, fs, created)
    ensures forall k: nat :: k <= m ==> LevelIsThere(fs, start, names, k)
  {
    GrownTree(before, created);
    forall k: nat | k <= m ensures LevelIsThere(fs, start, names, k) {
      if k > 0 {
        WayIsThere(before, fs, start, names, m, k);
      }
    }
  }

  /** What is true after `m` levels are passed: the tree is still closed under parents, nothing
      that was there changed, the new paths are exactly the created ones, each a directory made
      after its parent at one of those levels, and all of those levels are there. */
  ghost predicate WellMade(before: map<Path, Kind>, start: Path, names: seq<string>, m: nat, made: Made) {
    && Tree(made.fs) && Extends(before, made.fs) && ParentsFirst(before, made.created)
    && (forall p :: p in made.fs <==> p in before || p in made.created)
    && (forall p :: p in made.created ==>
        p !in before && made.fs[p].Directory? && OneOfTheLevels(made.fs, start, names, m, p))
    && (forall k: nat :: k <= m ==> LevelIsThere(made.fs, start, names, k))
  }

  /** Main: whatever the path, the starting tree and the refusals, and however far the code gets. */
  lemma WhateverIsMade(before: map<Path, Kind>, start: Path, refused: set<Path>, names: seq<string>, m: nat, made: Made)
    requires Tree(before) && start in before && m <= |names|
    requires MadeLevels(before, start, refused, names, m) == Some(made)
    ensures WellMade(before, start, names, m, made)
  {
    MadeLevelsReached(before, start, refused, names, m);
    GrownTree(before, made.created);
    CreatedAreLevels(before, made.created, made.fs, start, names, m);
    LevelsAreThere(before, made.created, made.fs, start, names, m);
  }

  // ---- Success ----

  predicate IsDirectory(fs: map<Path, Kind>, start: Path, levels: seq<string>) {
    var at := Walk(fs, start, levels);
    at.Some? && at.value in fs && fs[at.value].Directory?
  }

  /** Where the names of a path lead, read off the path alone. */
  function Place(start: Path, levels: seq<string>): Path {
    if levels == [] then start
    else
      var n := |levels| - 1;
      var at := Place(start, levels[..n]);
      if levels[n] == "." then at else if levels[n] == ".." then Parent(at) else at + [levels[n]]
  }

  /** Without symbolic links a walk that gets there gets to that place. */
  lemma {:induction false} WalkLeadsToPlace(fs: map<Path, Kind>, start: Path, levels: seq<string>)
    ensures Walk(fs, start, levels).Some? ==> Walk(fs, start, levels) == Some(Place(start, levels))
  {
    if levels != [] {
      WalkLeadsToPlace(fs, start, levels[..|levels| - 1]);
    }
  }

  /** Before the call, something stands at the target's place that passes the code's folder test
      without being a folder. */
  predicate TakenForFolder(before: map<Path, Kind>, start: Path, levels: seq<string>) {
    var target := Place(start, levels);
    target in before && (before[target].BlockDevice? || before[target].Socket?)
  }

  /** When all levels are passed, every ancestor is a directory. */
  lemma SuccessMakesAncestors(before: map<Path, Kind>, start: Path, refused: set<Path>, names: seq<string>, made: Made)
    requires Tree(before) && start in before && MadeLevels(before, start, refused, names, |names|) == Some(made)
    ensures forall k :: 0 <= k < |names| ==> IsDirectory(made.fs, start, names[..k])
  {
    MadeLevelsReached(before, start, refused, names, |names|);
    assert names[..|names|] == names;
    forall k | 0 <= k < |names| ensures IsDirectory(made.fs, start, names[..k]) {
      AncestorsAreDirectories(made.fs, start, names, k);
    }
  }

  /** When all levels are passed, the target is a directory if and only if there was no block
      device and no socket at its place before. */
  lemma SuccessMakesTarget(before: map<Path, Kind>, start: Path, refused: set<Path>, names: seq<string>, made: Made)
    requires Tree(before) && start in before && names != []
    requires MadeLevels(before, start, refused, names, |names|) == Some(made)
    ensures IsDirectory(made.fs, start, names) <==> !TakenForFolder(before, start, names)
  {
    MadeLevelsReached(before, start, refused, names, |names|);
    GrownTree(before, made.created);
    assert names[..|names|] == names;
    WalkLeadsToPlace(made.fs, start, names);
    assert LooksLikeFolder(made.fs[Place(start, names)]);
  }

  // ---- When it succeeds ----

  /** Level `k` is no obstacle on the way: nothing stands at its place and the kernel would create
      it, or a directory does. */
  predicate Free(before: map<Path, Kind>, start: Path, refused: set<Path>, names: seq<string>, k: nat)
    requires k <= |names|
  {
    var p := Place(start, names[..k]);
    if p in before then before[p].Directory? else p !in refused
  }

  /** At the end anything may stand that passes the code's folder test. */
  predicate FreeAtEnd(before: map<Path, Kind>, start: Path, refused: set<Path>, names: seq<string>, k: nat)
    requires k <= |names|
  {
    var p := Place(start, names[..k]);
    if p in before then before[p].Directory? || before[p].BlockDevice? || before[p].Socket? else p !in refused
  }

  /** Read off the tree before the call, the path and the refusals: the first `m` levels can be
      passed. */
  predicate CanPass(before: map<Path, Kind>, start: Path, refused: set<Path>, names: seq<string>, m: nat)
    requires m <= |names|
  {
    m > 0 ==>
      && start in before && before[start].Directory?
      && (forall k :: 0 < k < m ==> Free(before, start, refused, names, k))
      && FreeAtEnd(before, start, refused, names, m)
  }

  /** What was created was not refused. */
  lemma {:induction false} CreatedNotRefused(before: map<Path, Kind>, start: Path, refused: set<Path>,
                                             names: seq<string>,
                                             m: nat, made: Made)
    requires m <= |names| && MadeLevels(before, start, refused, names, m) == Some(made)
    ensures forall p :: p in made.created ==> p !in refused
  {
    if m > 0 {
      CreatedNotRefused(before, start, refused, names, m - 1, MadeLevels(before, start, refused, names, m - 1).value);
    }
  }

  /** Where the first `m` levels lead stands a directory exactly if level `m` was free. */
  lemma StandsThere(before: map<Path, Kind>, start: Path, refused: set<Path>, names: seq<string>, m: nat, made: Made)
    requires Tree(before) && start in before && before[start].Directory? && m <= |names|
    requires MadeLevels(before, start, refused, names, m) == Some(made)
    ensures Tree(made.fs)
    ensures Walk(made.fs, start, names[..m]) == Some(Place(start, names[..m])) && Place(start, names[..m]) in made.fs
    ensures made.fs[Place(start, names[..m])].Directory? <==> m == 0 || Free(before, start, refused, names, m)
    ensures forall p :: p in made.fs && p !in before ==> made.fs[p].Directory? && p !in refused
    ensures forall p :: p in before ==> p in made.fs && made.fs[p] == before[p]
  {
    WhateverIsMade(before, start, refused, names, m, made);
    CreatedNotRefused(before, start, refused, names, m, made);
    assert LevelIsThere(made.fs, start, names, m);
    WalkLeadsToPlace(made.fs, start, names[..m]);
    assert m == 0 ==> names[..m] == [];
  }

  /** The next level can be made exactly if a directory stands before it and it is free as an end. */
  lemma NextLevelMade(before: map<Path, Kind>, start: Path, refused: set<Path>, names: seq<string>, m: nat, made: Made)
    requires Tree(before) && start in before && before[start].Directory? && m < |names|
    requires MadeLevels(before, start, refused, names, m) == Some(made)
    ensures LevelMade(made, start, refused, names[..m + 1]).Some? <==>
            (m == 0 || Free(before, start, refused, names, m)) && FreeAtEnd(before, start, refused, names, m + 1)
  {
    StandsThere(before, start, refused, names, m, made);
    assert names[..m + 1][..m] == names[..m];
    var p, q := Place(start, names[..m]), Place(start, names[..m + 1]);
    if made.fs[p].Directory? {
      if q in made.fs {
        assert Walk(made.fs, start, names[..m + 1]) == Some(q);
      }
    }
  }

  /** A level that cannot be made stops all that follow. */
  lemma {:induction false} NoneStaysNone(before: map<Path, Kind>, start: Path, refused: set<Path>, names: seq<string>,
                                         m: nat, n: nat)
    requires m <= n <= |names| && MadeLevels(before, start, refused, names, m).None?
    ensures MadeLevels(before, start, refused, names, n).None?
  {
    if m < n {
      NoneStaysNone(before, start, refused, names, m, n - 1);
    }
  }

  lemma CanPassNext(before: map<Path, Kind>, start: Path, refused: set<Path>, names: seq<string>, m: nat)
    requires m < |names|
    ensures CanPass(before, start, refused, names, m + 1) <==>
            && CanPass(before, start, refused, names, m)
            && start in before && before[start].Directory?
            && (m == 0 || Free(before, start, refused, names, m)) && FreeAtEnd(before, start, refused, names, m + 1)
  {
    if CanPass(before, start, refused, names, m + 1) && m > 0 {
      assert Free(before, start, refused, names, m);
    }
  }

  /** Main: the first `m` levels are passed if and only if they can be. */
  lemma {:induction false} PassedExactly(before: map<Path, Kind>, start: Path, refused: set<Path>, names: seq<string>,
                                         m: nat)
    requires Tree(before) && m <= |names|
    ensures MadeLevels(before, start, refused, names, m).Some? <==> CanPass(before, start, refused, names, m)
  {
    if m > 0 {
      PassedExactly(before, start, refused, names, m - 1);
      CanPassNext(before, start, refused, names, m - 1);
      var made := MadeLevels(before, start, refused, names, m - 1);
      if made.Some? {
        if start in before && before[start].Directory? {
          StandsThere(before, start, refused, names, m - 1, made.value);
          NextLevelMade(before, start, refused, names, m - 1, made.value);
        } else {
          NoStartNoLevel(before, start, refused, names, m);
        }
      }
    }
  }

  /** Nothing is made from a place that is no directory. */
  lemma {:induction false} NoStartNoLevel(before: map<Path, Kind>, start: Path, refused: set<Path>,
                                          names: seq<string>, m: nat)
    requires 0 < m <= |names| && !(start in before && before[start].Directory?)
    ensures MadeLevels(before, start, refused, names, m).None?
  {
    if m == 1 {
      assert names[..1][..0] == [];
      assert MadeLevels(before, start, refused, names, 0) == Some(Made(before, []));
      assert Walk(before, start, names[..1]).None? && Creatable(before, start, refused, names[..1]).None?;
    } else {
      NoStartNoLevel(before, start, refused, names, m - 1);
    }
  }

  /** Returns the code's result, the tree it leaves, the paths it created in order and the
      number of levels it got past. `refused` are the paths the kernel will not create. */
  method MakeDirectory(before: map<Path, Kind>, cwd: Path, refused: set<Path>, path: string)
    returns (retval: int, fs: map<Path, Kind>, created: seq<Path>, passed: nat)
    ensures passed <= |Names(path)|
    ensures MadeLevels(before, Start(path, cwd), refused, Names(path), passed) == Some(Made(fs, created))
    ensures retval == (if passed == |Names(path)| then 0 else -1)
    ensures retval == -1 ==> MadeLevels(before, Start(path, cwd), refused, Names(path), passed + 1).None?
    ensures Tree(before) ==>
              && (retval == 0 <==> CanPass(before, Start(path, cwd), refused, Names(path), |Names(path)|))
              && CanPass(before, Start(path, cwd), refused, Names(path), passed)
              && (retval == -1 ==> !CanPass(before, Start(path, cwd), refused, Names(path), passed + 1))
    ensures Tree(before) && Start(path, cwd) in before ==>
              WellMade(before, Start(path, cwd), Names(path), passed, Made(fs, created))
    ensures Tree(before) && Start(path, cwd) in before && retval == 0 && Names(path) != [] ==>
              && (forall k :: 0 <= k < |Names(path)| ==> IsDirectory(fs, Start(path, cwd), Names(path)[..k]))
              && (IsDirectory(fs, Start(path, cwd), Names(path)) <==>
                  !TakenForFolder(before, Start(path, cwd), Names(path)))
  {
    NamesAreClean(path);
    var absolute := |path| > 0 && path[0] == '/';
    ghost var start, names := Start(path, cwd), Names(path);
    retval, fs, created, passed := MakeLevels(before, cwd, refused, absolute, path, start, names);
    if Tree(before) {
      PassedExactly(before, start, refused, names, passed);
      if retval == -1 {
        PassedExactly(before, start, refused, names, passed + 1);
        PassedExactly(before, start, refused, names, |names|);
        NoneStaysNone(before, start, refused, names, passed + 1, |names|);
      }
    }
    if Tree(before) && start in before {
      WhateverIsMade(before, start, refused, names, passed, Made(fs, created));
      if retval == 0 && names != [] {
        SuccessMakesAncestors(before, start, refused, names, Made(fs, created));
        SuccessMakesTarget(before, start, refused, names, Made(fs, created));
      }
    }
  }

  lemma OneName()
    ensures Names("d") == ["d"]
  {
    SplitWithoutDelimiter("d", '/');
    NonEmptyIdentity(["d"]);
  }

  lemma DeviceInTheWay(before: map<Path, Kind>, names: seq<string>)
    requires names == ["d"] && before == map[[] := Directory, ["d"] := BlockDevice]
    ensures Walk(before, [], names) == Some(["d"]) && Walk(before, [], names[..1]) == Some(["d"])
    ensures Place([], names) == ["d"]
  {
    assert names[..1] == names && names[..0] == [];
    assert [] + ["d"] == ["d"];
  }

  /** It happens: where a block device stands, the code reports success and makes nothing. */
  lemma BlockDeviceIsTakenForFolder() returns (before: map<Path, Kind>)
    ensures Tree(before) && Names("d") == ["d"]
    ensures MadeLevels(before, [], {}, Names("d"), 1) == Some(Made(before, []))
    ensures !IsDirectory(before, [], Names("d")) && TakenForFolder(before, [], Names("d"))
  {
    before := map[[] := Directory, ["d"] := BlockDevice];
    OneName();
    DeviceInTheWay(before, Names("d"));
    assert MadeLevels(before, [], {}, Names("d"), 0) == Some(Made(before, []));
  }

  /** A leading slash leads to the root whatever the working directory; any other path from there. */
  lemma WherePathsStart(path: string, cwd: Path, elsewhere: Path)
    ensures "/" <= path ==> Start(path, cwd) == [] && Start(path, elsewhere) == []
    ensures !("/" <= path) ==> Start(path, cwd) == cwd
  {
    assert path != "" ==> (path[0] == '/' <==> path[..1] == "/");
  }

  lemma Associative<T>(a: seq<T>, b: seq<T>, c: seq<T>)
    ensures a + (b + c) == a + b + c
  {
  }

  lemma {:induction false} JoinAppend(a: seq<string>, b: seq<string>, d: char)
    requires a != [] && b != []
    ensures Join(a + b, d) == Join(a, d) + [d] + Join(b, d)
  {
    if |a| == 1 {
      assert (a + b)[1..] == b;
    } else {
      JoinAppend(a[1..], b, d);
      assert (a + b)[1..] == a[1..] + b && (a + b)[0] == a[0];
      Associative(a[0] + [d], Join(a[1..], d), [d] + Join(b, d));
      Associative(Join(a[1..], d), [d], Join(b, d));
      Associative(Join(a, d), [d], Join(b, d));
    }
  }

  lemma SplitAround(x: string, d: char, u: string)
    ensures Split(x + [d] + u, d) == Split(x, d) + Split(u, d)
  {
    TokensAreClean(x, d);
    TokensAreClean(u, d);
    JoinOfSplit(x, d);
    JoinOfSplit(u, d);
    JoinAppend(Split(x, d), Split(u, d), d);
    SplitOfJoin(Split(x, d) + Split(u, d), d);
  }

  lemma {:induction false} NonEmptyAppend(a: seq<string>, b: seq<string>)
    ensures NonEmpty(a + b) == NonEmpty(a) + NonEmpty(b)
  {
    if a == [] {
      assert a + b == b;
    } else {
      var head := if a[0] == "" then [] else [a[0]];
      NonEmptyAppend(a[1..], b);
      NonEmptyCons(a[0], a[1..]);
      NonEmptyCons(a[0], a[1..] + b);
      assert [a[0]] + a[1..] == a && [a[0]] + (a[1..] + b) == a + b;
      Associative(head, NonEmpty(a[1..]), NonEmpty(b));
    }
  }

  /** A slash between two paths names nothing: the names of both follow one another. */
  lemma NamesOfJoined(x: string, y: string)
    ensures Names(x + "/" + y) == Names(x) + Names(y)
  {
    SplitAround(x, '/', y);
    NonEmptyAppend(Split(x, '/'), Split(y, '/'));
  }

  /** Nor do slashes in a row, at the front or at the end; a text without a slash is one name. */
  lemma SlashesNameNothing(x: string, y: string)
    ensures Names(x + "/" + ("/" + y)) == Names(x + "/" + y)
    ensures Names("/" + x) == Names(x) && Names(x + "/" + "") == Names(x)
    ensures IsName(x) ==> Names(x) == [x]
    ensures Names("") == []
  {
    NoName();
    NamesOfJoined(x, "/" + y);
    NamesOfJoined(x, y);
    LeadingSlash(y);
    LeadingSlash(x);
    NamesOfJoined(x, "");
    if IsName(x) {
      SplitWithoutDelimiter(x, '/');
      NonEmptyIdentity([x]);
    }
  }

  lemma NoName()
    ensures Names("") == []
  {
    SplitWithoutDelimiter("", '/');
    NonEmptyCons("", []);
    assert [""] + [] == [""];
  }
}
