/**
 The names under which one file is known: the path on the server, and the key of the
 client's local copy. Every client operation builds its key with string code of its own;
 here the constructions are written as the client writes them and shown to agree.
 */
module Keys {

  // A full path on the server, as carried by requests and notifications.
  type Path = string

  predicate StartsWithSlash(s: string) {
    s != "" && s[0] == '/'
  }

  predicate EndsWithSlash(s: string) {
    s != "" && s[|s| - 1] == '/'
  }

  // (s.back() == '/' ? "" : "/")
  function Sep(s: string): string {
    if EndsWithSlash(s) then "" else "/"
  }

  // (s.front() == '/' ? "" : "/")
  function Lead(s: string): string {
    if StartsWithSlash(s) then "" else "/"
  }

  // path::relative_path of an absolute path; a relative path is left alone.
  function StripSlashes(s: string): string {
    if StartsWithSlash(s) then StripSlashes(s[1..]) else s
  }

  // resolve_server_path. Appending an empty path still adds the separator.
  function Resolve(root: string, user: string): string {
    root + Sep(root) + StripSlashes(user)
  }

  // The server's path for a file: built by open and close on the server, and as the
  // cached_attr key on the client.
  function ServerPath(root: string, dir: string, name: string): Path {
    Resolve(root, dir) + Sep(Resolve(root, dir)) + name
  }

  // The local key the subscriber builds from the path in a notification.
  function LocalKey(cacheDir: string, p: Path): string {
    cacheDir + Lead(p) + p
  }

  // The local key open_file builds: the cache directory first, then the name.
  function OpenKey(cacheDir: string, root: string, dir: string, name: string): string {
    var cacheSubdir := cacheDir + Lead(Resolve(root, dir)) + Resolve(root, dir);
    cacheSubdir + Sep(cacheSubdir) + name
  }

  // The local key read_file, write_file, create_file, close_file and rename_file build.
  function EditKey(cacheDir: string, root: string, dir: string, name: string): string {
    cacheDir + Lead(Resolve(root, dir)) + Resolve(root, dir) + Sep(Resolve(root, dir)) + name
  }

  // The local key delete_file builds from one full path.
  function DeleteKey(cacheDir: string, root: string, full: string): string {
    Unslashed(cacheDir + Lead(Resolve(root, full)) + Resolve(root, full))
  }

  // A path without one trailing slash.
  function Unslashed(p: string): string {
    if EndsWithSlash(p) then p[..|p| - 1] else p
  }

  // The path the file system layer hands to delete_file.
  function FullPath(dir: string, name: string): string {
    dir + Sep(dir) + name
  }

  // A directory without a trailing slash; "" and "/" both name the root.
  predicate Normalised(dir: string) {
    !EndsWithSlash(StripSlashes(dir))
  }

  predicate GoodName(name: string) {
    name != "" && '/' !in name
  }

  // Every path handed to the server starts like the root it was resolved against.
  predicate Rooted(root: string, p: Path) {
    p != "" && (StartsWithSlash(p) <==> StartsWithSlash(root))
  }

  lemma ServerPathIsRooted(root: string, dir: string, name: string)
    requires root != ""
    ensures Rooted(root, ServerPath(root, dir, name))
  {
    assert ServerPath(root, dir, name)[0] == root[0];
  }

  lemma {:induction false} StripSlashesIsSuffix(s: string)
    ensures |StripSlashes(s)| <= |s|
    ensures StripSlashes(s) == s[|s| - |StripSlashes(s)|..]
    ensures !StartsWithSlash(StripSlashes(s))
  {
    if StartsWithSlash(s) {
      StripSlashesIsSuffix(s[1..]);
    }
  }

  lemma {:induction false} StripSlashesOfFullPath(dir: string, name: string)
    requires Normalised(dir) && GoodName(name)
    ensures StripSlashes(FullPath(dir, name)) ==
            if StripSlashes(dir) == "" then name else StripSlashes(dir) + "/" + name
  {
    if StartsWithSlash(dir) {
      if dir == "/" {
        assert FullPath(dir, name) == "/" + name;
        assert FullPath(dir, name)[1..] == name;
      } else {
        StripSlashesOfFullPath(dir[1..], name);
        assert FullPath(dir, name)[1..] == FullPath(dir[1..], name);
      }
    } else if dir == "" {
      assert FullPath(dir, name) == "/" + name;
      assert FullPath(dir, name)[1..] == name;
    } else {
      assert FullPath(dir, name)[0] == dir[0];
    }
  }

  // Deleting names the same path on the server as opening.
  lemma DeletedPathAgrees(root: string, dir: string, name: string)
    requires root != "" && Normalised(dir) && GoodName(name)
    ensures Resolve(root, FullPath(dir, name)) == ServerPath(root, dir, name)
  {
    StripSlashesOfFullPath(dir, name);
    var top, d := root + Sep(root), StripSlashes(dir);
    assert top[|top| - 1] == '/';
    if d != "" {
      assert Resolve(root, dir)[|Resolve(root, dir)| - 1] == d[|d| - 1];
      assert top + (d + "/" + name) == top + d + "/" + name;
    } else {
      assert top + d == top;
    }
  }

  lemma OpenAndEditKeysAgree(cacheDir: string, root: string, dir: string, name: string)
    requires root != ""
    ensures OpenKey(cacheDir, root, dir, name) == LocalKey(cacheDir, ServerPath(root, dir, name))
    ensures EditKey(cacheDir, root, dir, name) == LocalKey(cacheDir, ServerPath(root, dir, name))
  {
    var r := Resolve(root, dir);
    assert r[0] == root[0];
    assert ServerPath(root, dir, name)[0] == root[0];
    var sub := cacheDir + Lead(r) + r;
    assert sub[|sub| - 1] == r[|r| - 1];
    assert sub + Sep(r) + name == cacheDir + Lead(r) + (r + Sep(r) + name);
  }

  /** Open, the editing operations, the subscriber and delete all build the same key, and
      delete names the same path on the server. */
  lemma AllKeysAgree(cacheDir: string, root: string, dir: string, name: string)
    requires root != "" && Normalised(dir) && GoodName(name)
    ensures OpenKey(cacheDir, root, dir, name) == LocalKey(cacheDir, ServerPath(root, dir, name))
    ensures EditKey(cacheDir, root, dir, name) == LocalKey(cacheDir, ServerPath(root, dir, name))
    ensures Resolve(root, FullPath(dir, name)) == ServerPath(root, dir, name)
    ensures DeleteKey(cacheDir, root, FullPath(dir, name)) == LocalKey(cacheDir, ServerPath(root, dir, name))
  {
    OpenAndEditKeysAgree(cacheDir, root, dir, name);
    DeletedPathAgrees(root, dir, name);
    var key := LocalKey(cacheDir, ServerPath(root, dir, name));
    assert key[|key| - 1] == name[|name| - 1] && name[|name| - 1] in name;
  }

  predicate AllSlashes(s: string) {
    forall i :: 0 <= i < |s| ==> s[i] == '/'
  }

  lemma {:induction false} StripSlashesOf(lead: string, d: string)
    requires AllSlashes(lead) && !StartsWithSlash(d)
    ensures StripSlashes(lead + d) == d
  {
    if lead == "" {
      assert lead + d == d;
    } else {
      StripSlashesOf(lead[1..], d);
      assert (lead + d)[1..] == lead[1..] + d;
    }
  }

  /** The path of a file below the root is the root, the directory without its leading slashes, and
      the name, each joined by one slash; its local key is that path below the cache directory. */
  lemma ServerPathMeaning(cacheDir: string, root: string, lead: string, d: string, name: string)
    requires root != "" && AllSlashes(lead) && d != "" && !StartsWithSlash(d) && !EndsWithSlash(d)
    ensures var top := if EndsWithSlash(root) then root else root + "/";
            var p := ServerPath(root, lead + d, name);
            && p == top + d + "/" + name
            && LocalKey(cacheDir, p) == (if StartsWithSlash(root) then cacheDir + p else cacheDir + "/" + p)
  {
    StripSlashesOf(lead, d);
    var r := Resolve(root, lead + d);
    assert r == root + Sep(root) + d && r[|r| - 1] == d[|d| - 1];
    assert ServerPath(root, lead + d, name) == r + "/" + name;
    assert r[0] == root[0] && ServerPath(root, lead + d, name)[0] == r[0];
  }

  lemma RootSpellingsAgree(root: string, name: string)
    requires root != ""
    ensures ServerPath(root, "", name) == ServerPath(root, "/", name) == root + Sep(root) + name
  {
    assert StripSlashes("/") == StripSlashes("/"[1..]);
    assert root + Sep(root) + "" == root + Sep(root);
  }

  /** Two server paths of one client share a local key only if they are the same path. */
  lemma LocalKeyInjective(cacheDir: string, root: string, p: Path, q: Path)
    requires Rooted(root, p) && Rooted(root, q)
    requires LocalKey(cacheDir, p) == LocalKey(cacheDir, q)
    ensures p == q
  {
    var n := |cacheDir + Lead(p)|;
    assert p == LocalKey(cacheDir, p)[n..];
    assert q == LocalKey(cacheDir, q)[n..];
  }

  lemma SplitAtLastSlash(a: string, m: string, b: string, n: string)
    requires '/' !in m && '/' !in n
    requires a + "/" + m == b + "/" + n
    ensures a == b && m == n
  {
    var s, t := a + "/" + m, b + "/" + n;
    assert s[|a|] == '/' && t[|b|] == '/';
    assert forall i :: |a| < i < |s| ==> s[i] == m[i - |a| - 1] && s[i] != '/';
    assert forall i :: |b| < i < |t| ==> t[i] == n[i - |b| - 1] && t[i] != '/';
    assert a == s[..|a|] && b == t[..|b|];
    assert m == s[|a| + 1..] && n == t[|b| + 1..];
  }

  /** Different files get different paths: the path determines the name, and the directory up
      to its leading slashes. With LocalKeyInjective, so does the local key. */
  lemma ServerPathInjective(root: string, dir: string, name: string, dir': string, name': string)
    requires root != "" && Normalised(dir) && Normalised(dir') && GoodName(name) && GoodName(name')
    requires ServerPath(root, dir, name) == ServerPath(root, dir', name')
    ensures name == name' && StripSlashes(dir) == StripSlashes(dir')
  {
    SplitsOffName(root, dir, name);
    SplitsOffName(root, dir', name');
    SplitAtLastSlash(Above(root, dir), name, Above(root, dir'), name');
    var top := root + Sep(root);
    assert top[|top| - 1] == '/';
    var d, d' := StripSlashes(dir), StripSlashes(dir');
    assert Above(root, dir) == if d == "" then top[..|top| - 1] else top + d;
    if d != "" {
      assert d == (top + d)[|top|..];
    }
    if d' != "" {
      assert d' == (top + d')[|top|..];
    }
  }

  // The path of a file's directory, without a trailing slash.
  function Above(root: string, dir: string): string {
    var top := root + Sep(root);
    if StripSlashes(dir) == "" then top[..|top| - 1] else top + StripSlashes(dir)
  }

  lemma SplitsOffName(root: string, dir: string, name: string)
    requires root != "" && Normalised(dir)
    ensures ServerPath(root, dir, name) == Above(root, dir) + "/" + name
  {
    var top := root + Sep(root);
    assert top[|top| - 1] == '/';
    var r := Resolve(root, dir);
    var d := StripSlashes(dir);
    if d == "" {
      assert r == top == top[..|top| - 1] + "/";
    } else {
      assert r[|r| - 1] == d[|d| - 1];
    }
  }

  // The local path truncate_file builds. It leaves out the separator before the name.
  function TruncateKey(cacheDir: string, root: string, dir: string, name: string): string {
    cacheDir + Lead(Resolve(root, dir)) + Resolve(root, dir) + name
  }

  /** truncate_file finds the file the other operations use exactly in the root directory. */
  lemma TruncateAgreesExactlyAtTheRoot(cacheDir: string, root: string, dir: string, name: string)
    requires root != "" && Normalised(dir)
    ensures TruncateKey(cacheDir, root, dir, name) == EditKey(cacheDir, root, dir, name) <==>
            StripSlashes(dir) == ""
  {
    var r, d := Resolve(root, dir), StripSlashes(dir);
    if d != "" {
      assert r[|r| - 1] == d[|d| - 1];
      assert |TruncateKey(cacheDir, root, dir, name)| != |EditKey(cacheDir, root, dir, name)|;
    } else {
      assert EndsWithSlash(r);
    }
  }
}
