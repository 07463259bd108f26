/** Platform user bindings: built from a request payload, stored in a workspace row, rebuilt for
    every later request, and compared by the store before it accepts a run.

    A path is the sequence of its components; a raw path is what the request spelled, before
    `.`, `..` and empty components are dealt with. */
module Bindings {
  import opened Outcomes

  type Path = seq<string>

  datatype RawPath = RawPath(absolute: bool, parts: seq<string>)

  predicate Hex(c: char) { '0' <= c <= '9' || 'a' <= c <= 'f' }

  const SOME_DIGEST: string := seq(64, _ => 'a')

  /** A SHA-256 hex digest. */
  type Digest = s: string | |s| == 64 && forall i :: 0 <= i < |s| ==> Hex(s[i])
    witness SOME_DIGEST

  // ----- Paths and references -----

  /** Path.resolve without symbolic links: `..` at the root stays at the root. */
  function Resolve(parts: seq<string>): (p: Path)
    ensures Canonical(p)
  {
    if parts == [] then []
    else
      var init, last := Resolve(parts[..|parts| - 1]), parts[|parts| - 1];
      if last == "" || last == "." then init
      else if last == ".." then if init == [] then [] else init[..|init| - 1]
      else init + [last]
  }

  predicate Canonical(p: Path) {
    forall i :: 0 <= i < |p| ==> p[i] != "" && p[i] != "." && p[i] != ".."
  }

  lemma ResolveCanonical(p: Path)
    requires Canonical(p)
    ensures Resolve(p) == p
  {
    if p != [] {
      var init, last := p[..|p| - 1], p[|p| - 1];
      assert p == init + [last] && last != "" && last != "." && last != "..";
      assert Canonical(init);
      ResolveCanonical(init);
    }
  }

  function DropDots(parts: seq<string>): (p: Path)
    ensures forall i :: 0 <= i < |p| ==> p[i] != "" && p[i] != "."
  {
    if parts == [] then []
    else (if parts[0] == "" || parts[0] == "." then [] else [parts[0]]) + DropDots(parts[1..])
  }

  lemma DropDotsCanonical(p: Path)
    requires Canonical(p)
    ensures DropDots(p) == p
  {
    if p != [] {
      DropDotsCanonical(p[1..]);
      assert p == [p[0]] + p[1..];
    }
  }

  function AbsolutePath(raw: Option<RawPath>): Outcome<Path> {
    if raw.None? || !raw.value.absolute then Err(InvalidRequest) else Ok(Resolve(raw.value.parts))
  }

  function RelativePath(raw: Option<RawPath>): (r: Outcome<Path>)
    ensures r.Ok? ==> r.value != [] && Canonical(r.value)
  {
    if raw.None? || raw.value.absolute then Err(InvalidRequest)
    else
      var parts := DropDots(raw.value.parts);
      if parts == [] || ".." in parts then Err(InvalidRequest) else Ok(parts)
  }

  predicate RefChar(c: char) {
    'A' <= c <= 'Z' || 'a' <= c <= 'z' || '0' <= c <= '9' || c == '.' || c == '_' || c == '-'
  }

  predicate StableRef(s: string) {
    1 <= |s| <= 200 && forall i :: 0 <= i < |s| ==> RefChar(s[i])
  }

  predicate Internal(ref: string) { |ref| >= 2 && ref[..2] == "__" }

  function UserRef(sha: Path -> Digest, userRel: Path): string { "u-" + sha(userRel)[..32] }

  const DEFAULT_PROJECT := "__default__"

  function DerivedProject(sha: Path -> Digest, projectRel: Path): string {
    "__derived_" + sha(projectRel)[..24]
  }

  // ----- UserBinding -----

  datatype UserBinding = UserBinding(
    scope: string, tenant: string, user: string, userPath: Path,
    project: string, projectPath: Path,
    storageRoot: Option<Path>, userRel: Path, projectRel: Path)

  predicate Below(p: Path, root: Path) { |root| < |p| && p[..|root|] == root }

  /** UserBinding.__post_init__, given paths that are already canonical; `[]` is an absent
      relative path. */
  function Construct(scope: string, tenant: string, user: string, userPath: Path, project: string,
                     projectPath: Path, storageRoot: Option<Path>, userRel: Path, projectRel: Path)
    : Outcome<UserBinding>
  {
    if !StableRef(scope) || !StableRef(tenant) || !StableRef(user) || !StableRef(project)
       || scope != user then Err(InvalidRequest)
    else if storageRoot.Some? && (userRel == [] || userPath != Resolve(storageRoot.value + userRel)) then
      Err(InvalidRequest)
    else if storageRoot.None? && userRel != [] then Err(InvalidRequest)
    else if !Below(projectPath, userPath) then Err(InvalidRequest)
    else if projectRel != [] && projectPath != Resolve(userPath + projectRel) then Err(InvalidRequest)
    else
      Ok(UserBinding(scope, tenant, user, userPath, project, projectPath, storageRoot, userRel,
                     if projectRel != [] then projectRel else projectPath[|userPath|..]))
  }

  /** What the request gives; an absent or empty value is None. */
  datatype Payload = Payload(
    storageRoot: Option<RawPath>,
    userRel: Option<RawPath>,
    projectRef: Option<string>,
    projectRel: Option<RawPath>)

  function FromPayload(sha: Path -> Digest, p: Payload): Outcome<UserBinding> {
    var root := AbsolutePath(p.storageRoot);
    var userRel := RelativePath(p.userRel);
    var projectRel := RelativePath(p.projectRel);
    if root.Err? || userRel.Err? || (p.projectRel.Some? && projectRel.Err?) then Err(InvalidRequest)
    else if p.projectRef.Some? && !StableRef(p.projectRef.value) then Err(InvalidRequest)
    else
      Bind(sha, root.value, userRel.value, p.projectRef,
           if p.projectRel.Some? then projectRel.value else [])
  }

  function Bind(sha: Path -> Digest, root: Path, userRel: Path, ref: Option<string>, rel: Path)
    : Outcome<UserBinding>
  {
    var project :=
      if ref.Some? then ref.value else if rel == [] then DEFAULT_PROJECT else DerivedProject(sha, rel);
    var userPath := Resolve(root + userRel);
    var projectPath := Resolve(userPath + ProjectSuffix(ref, rel));
    var user := UserRef(sha, userRel);
    Construct(user, "platform", user, userPath, project, projectPath, Some(root), userRel, rel)
  }

  function ProjectSuffix(ref: Option<string>, rel: Path): seq<string> {
    if rel != [] then rel
    else if ref.Some? then ["workspace", "projects", ref.value]
    else ["workspace"]
  }

  // ----- The workspace row and what is rebuilt from it -----

  /** The columns of a workspaces row that hold a binding; `[]` is an empty path column. */
  datatype Columns = Columns(
    tenant: string, user: string, userPath: Path, project: string, projectPath: Path,
    storageRoot: Option<Path>, userRel: Path)

  function Stored(b: UserBinding): Columns {
    Columns(b.tenant, b.user, b.userPath, b.project, b.projectPath, b.storageRoot, b.userRel)
  }

  function FromSession(sha: Path -> Digest, row: Columns): Outcome<Option<UserBinding>> {
    if row.projectPath == [] || row.userPath == [] then Ok(None)
    else if !(row.userPath <= row.projectPath) || row.storageRoot.None? then Ok(None)
    else
      var ref := if Internal(row.project) || row.project == "" then None else Some(row.project);
      var b := FromPayload(sha, Payload(
        Some(RawPath(true, row.storageRoot.value)),
        Some(RawPath(false, row.userRel)),
        ref,
        Some(RawPath(false, row.projectPath[|row.userPath|..]))));
      if b.Ok? then Ok(Some(b.value)) else Err(b.error)
  }

  /** The check of _require_session_binding. */
  function RequireBinding(row: Columns, given: Option<UserBinding>): Outcome<()> {
    var stored := Construct(row.user, row.tenant, row.user, row.userPath, row.project,
                            row.projectPath, row.storageRoot, row.userRel, []);
    if row.projectPath == [] then
      if given.None? then Ok(()) else Err(IdempotencyConflict)
    else if stored.Err? then Err(stored.error)
    else if given.None? then Err(InvalidRequest)
    else if given.value != stored.value then Err(IdempotencyConflict)
    else Ok(())
  }

  // ----- The round trip -----

  /** The payloads whose project reference survives the row: one the user gave that is not in the
      reserved `__` space (or happens to be the derived one), or none beside a given path. */
  predicate Rebuildable(sha: Path -> Digest, p: Payload) {
    match p.projectRef
    case None => p.projectRel.Some?
    case Some(ref) =>
      !Internal(ref)
      || (var rel := RelativePath(p.projectRel);
          ref == DerivedProject(sha, if rel.Ok? then rel.value else ["workspace", "projects", ref]))
  }

  lemma ResolveAppend(base: Path, rel: Path)
    requires Canonical(base) && Canonical(rel)
    ensures Resolve(base + rel) == base + rel
  {
    ResolveCanonical(base + rel);
  }

  /** What every binding the platform builds looks like. */
  ghost predicate WellFormed(sha: Path -> Digest, b: UserBinding) {
    && b.storageRoot.Some? && Canonical(b.storageRoot.value)
    && b.userRel != [] && Canonical(b.userRel) && b.userPath == b.storageRoot.value + b.userRel
    && b.projectRel != [] && Canonical(b.projectRel) && b.projectPath == b.userPath + b.projectRel
    && b.scope == b.user == UserRef(sha, b.userRel) && b.tenant == "platform"
    && StableRef(b.user) && StableRef(b.project)
  }

  lemma BoundIsWellFormed(sha: Path -> Digest, root: Path, userRel: Path, ref: Option<string>, rel: Path)
    requires Canonical(root) && Canonical(userRel) && userRel != [] && Canonical(rel)
    requires Bind(sha, root, userRel, ref, rel).Ok?
    ensures var b := Bind(sha, root, userRel, ref, rel).value;
      && WellFormed(sha, b)
      && b.project == (if ref.Some? then ref.value
                       else if rel != [] then DerivedProject(sha, b.projectRel) else DEFAULT_PROJECT)
      && (rel != [] ==> b.projectRel == rel)
  {
    var b := Bind(sha, root, userRel, ref, rel).value;
    ResolveAppend(root, userRel);
    if rel != [] {
      ResolveAppend(b.userPath, rel);
    }
    assert b.projectPath == b.userPath + b.projectPath[|b.userPath|..];
  }

  lemma PayloadBinding(sha: Path -> Digest, p: Payload)
    requires FromPayload(sha, p).Ok?
    ensures var b := FromPayload(sha, p).value;
      && WellFormed(sha, b)
      && b.project == (match p.projectRef
                       case Some(ref) => ref
                       case None => if p.projectRel.Some? then "__derived_" + sha(b.projectRel)[..24] else "__default__")
      && (p.projectRel.Some? ==> RelativePath(p.projectRel) == Ok(b.projectRel))
      && b.user == "u-" + sha(b.userRel)[..32]
  {
    var root, userRel := AbsolutePath(p.storageRoot).value, RelativePath(p.userRel).value;
    BoundIsWellFormed(sha, root, userRel, p.projectRef,
                      if p.projectRel.Some? then RelativePath(p.projectRel).value else []);
  }

  /** A relative path that names something, and nothing above where it starts. */
  predicate NamesBelow(raw: Option<RawPath>) {
    && raw.Some? && !raw.value.absolute && ".." !in raw.value.parts
    && exists i :: 0 <= i < |raw.value.parts| && raw.value.parts[i] != "" && raw.value.parts[i] != "."
  }

  lemma {:induction false} DropDotsMembers(parts: seq<string>)
    ensures ".." in DropDots(parts) <==> ".." in parts
    ensures DropDots(parts) != [] <==> exists i :: 0 <= i < |parts| && parts[i] != "" && parts[i] != "."
  {
    if parts != [] {
      DropDotsMembers(parts[1..]);
      assert ".." in parts <==> parts[0] == ".." || ".." in parts[1..];
      if i :| 0 <= i < |parts[1..]| && parts[1..][i] != "" && parts[1..][i] != "." { assert parts[i + 1] == parts[1..][i]; }
      if i :| 0 <= i < |parts| && parts[i] != "" && parts[i] != "." && i > 0 { assert parts[1..][i - 1] == parts[i]; }
    }
  }

  lemma RelativeExactly(raw: Option<RawPath>)
    ensures RelativePath(raw).Ok? <==> NamesBelow(raw)
  {
    if raw.Some? { DropDotsMembers(raw.value.parts); }
  }

  lemma ResolveLast(parts: seq<string>, last: string)
    ensures Resolve(parts + [last]) ==
              if last == "" || last == "." then Resolve(parts)
              else if last == ".." then if Resolve(parts) == [] then [] else Resolve(parts)[..|Resolve(parts)| - 1]
              else Resolve(parts) + [last]
  {
    assert (parts + [last])[..|parts|] == parts;
  }

  lemma BelowAppend(userPath: Path, rel: Path)
    requires rel != []
    ensures Below(userPath + rel, userPath)
  {
  }

  lemma DefaultSuffixIsBelow(userPath: Path, ref: string)
    requires Canonical(userPath)
    ensures Below(Resolve(userPath + (["workspace", "projects"] + [ref])), userPath)
  {
    assert Canonical(["workspace", "projects"]);
    hide Resolve, Canonical, Below;
    var parts := userPath + ["workspace", "projects"];
    ResolveAppend(userPath, ["workspace", "projects"]);
    ResolveLast(parts, ref);
    assert parts + [ref] == userPath + (["workspace", "projects"] + [ref]);
    if ref == "" || ref == "." {
      BelowAppend(userPath, ["workspace", "projects"]);
    } else if ref == ".." {
      BelowAppend(userPath, ["workspace"]);
      assert parts[..|parts| - 1] == userPath + ["workspace"];
    } else {
      BelowAppend(userPath, ["workspace", "projects"] + [ref]);
    }
  }

  /** A project without a path of its own still lies below its user. */
  lemma SuffixIsBelow(userPath: Path, ref: Option<string>, rel: Path)
    requires Canonical(userPath) && Canonical(rel)
    ensures Below(Resolve(userPath + ProjectSuffix(ref, rel)), userPath)
  {
    assert Canonical(["workspace"]);
    hide Resolve, Canonical, Below;
    if rel != [] {
      ResolveAppend(userPath, rel);
      BelowAppend(userPath, rel);
    } else if ref.None? {
      ResolveAppend(userPath, ["workspace"]);
      BelowAppend(userPath, ["workspace"]);
    } else {
      DefaultSuffixIsBelow(userPath, ref.value);
      assert ["workspace", "projects"] + [ref.value] == ProjectSuffix(ref, rel);
    }
  }

  lemma BindSucceeds(sha: Path -> Digest, root: Path, userRel: Path, ref: Option<string>, rel: Path)
    requires Canonical(root) && Canonical(userRel) && userRel != [] && Canonical(rel) && (ref.Some? ==> StableRef(ref.value))
    ensures Bind(sha, root, userRel, ref, rel).Ok?
  {
    assert StableRef(DEFAULT_PROJECT) && StableRef("platform");
    hide UserRef, DerivedProject, StableRef, Resolve, Below, ProjectSuffix;
    ResolveAppend(root, userRel);
    CanonicalAppend(root, userRel);
    SuffixIsBelow(root + userRel, ref, rel);
    UserRefIsStable(sha, userRel);
    DerivedIsStable(sha, rel);
    if rel != [] { SuffixOfRel(ref, rel); }
  }

  lemma SuffixOfRel(ref: Option<string>, rel: Path)
    requires rel != []
    ensures ProjectSuffix(ref, rel) == rel
  {
  }

  lemma CanonicalAppend(a: Path, b: Path)
    requires Canonical(a) && Canonical(b)
    ensures Canonical(a + b)
  {
  }

  /** A payload gives a binding if and only if its root is absolute, its user path and its project path, if it
      has one, name something below where they start, and its project reference, if it has one, is stable. */
  lemma PayloadAccepted(sha: Path -> Digest, p: Payload)
    ensures FromPayload(sha, p).Ok? <==>
              && p.storageRoot.Some? && p.storageRoot.value.absolute && NamesBelow(p.userRel)
              && (p.projectRel.Some? ==> NamesBelow(p.projectRel))
              && (p.projectRef.Some? ==> StableRef(p.projectRef.value))
  {
    RelativeExactly(p.userRel);
    RelativeExactly(p.projectRel);
    hide NamesBelow, StableRef, Bind, Resolve, DropDots;
    if AbsolutePath(p.storageRoot).Ok? && RelativePath(p.userRel).Ok? && (p.projectRel.Some? ==> RelativePath(p.projectRel).Ok?)
       && (p.projectRef.Some? ==> StableRef(p.projectRef.value)) {
      BindSucceeds(sha, AbsolutePath(p.storageRoot).value, RelativePath(p.userRel).value, p.projectRef,
                   if p.projectRel.Some? then RelativePath(p.projectRel).value else []);
    }
  }

  /** A payload spelled with canonical paths and a project path means exactly those paths. */
  lemma CanonicalPayload(sha: Path -> Digest, root: Path, userRel: Path, ref: Option<string>, rel: Path)
    requires Canonical(root) && Canonical(userRel) && Canonical(rel) && userRel != [] && rel != []
    requires ref.Some? ==> StableRef(ref.value)
    requires StableRef(UserRef(sha, userRel))
    ensures var user, project := UserRef(sha, userRel), if ref.Some? then ref.value else DerivedProject(sha, rel);
      FromPayload(sha, Payload(Some(RawPath(true, root)), Some(RawPath(false, userRel)), ref, Some(RawPath(false, rel))))
        == Ok(UserBinding(user, "platform", user, root + userRel, project, root + userRel + rel,
                          Some(root), userRel, rel))
  {
    hide Bind, StableRef, UserRef, DerivedProject, Resolve, DropDots;
    ResolveCanonical(root);
    DropDotsCanonical(userRel);
    DropDotsCanonical(rel);
    CanonicalBind(sha, root, userRel, ref, rel);
  }

  lemma CanonicalBind(sha: Path -> Digest, root: Path, userRel: Path, ref: Option<string>, rel: Path)
    requires Canonical(root) && Canonical(userRel) && Canonical(rel) && userRel != [] && rel != []
    requires ref.Some? ==> StableRef(ref.value)
    requires StableRef(UserRef(sha, userRel))
    ensures var user, project := UserRef(sha, userRel), if ref.Some? then ref.value else DerivedProject(sha, rel);
      Bind(sha, root, userRel, ref, rel)
        == Ok(UserBinding(user, "platform", user, root + userRel, project, root + userRel + rel,
                          Some(root), userRel, rel))
  {
    hide Canonical, Resolve, UserRef, DerivedProject;
    ResolveAppend(root, userRel);
    ResolveAppend(root + userRel, rel);
    DerivedIsStable(sha, rel);
    assert StableRef("platform");
  }

  lemma DerivedIsStable(sha: Path -> Digest, rel: Path)
    ensures StableRef(DerivedProject(sha, rel)) && Internal(DerivedProject(sha, rel))
    ensures DerivedProject(sha, rel) != DEFAULT_PROJECT
  {
    var derived := DerivedProject(sha, rel);
    assert derived[4] == 'r' && DEFAULT_PROJECT[4] == 'f';
    forall i | 0 <= i < |derived| ensures RefChar(derived[i]) {
      if i >= 10 { assert derived[i] == sha(rel)[i - 10]; }
    }
  }

  /** Rebuilding from the row reads back everything but, in the reserved space, the reference. */
  lemma RebuiltBinding(sha: Path -> Digest, p: Payload)
    requires FromPayload(sha, p).Ok?
    ensures var b := FromPayload(sha, p).value;
      FromSession(sha, Stored(b)) ==
        Ok(Some(if Internal(b.project) then b.(project := DerivedProject(sha, b.projectRel)) else b))
  {
    var b := FromPayload(sha, p).value;
    PayloadBinding(sha, p);
    RebuiltColumns(sha, b);
  }

  lemma RebuiltColumns(sha: Path -> Digest, b: UserBinding)
    requires WellFormed(sha, b)
    ensures FromSession(sha, Stored(b)) ==
      Ok(Some(if Internal(b.project) then b.(project := DerivedProject(sha, b.projectRel)) else b))
  {
    hide FromPayload, DerivedProject, UserRef, Canonical;
    assert b.projectPath[|b.userPath|..] == b.projectRel;
    CanonicalPayload(sha, b.storageRoot.value, b.userRel,
                     if Internal(b.project) then None else Some(b.project), b.projectRel);
  }

  /** The binding round trip, exactly: the binding rebuilt from the stored row is the original one
      if and only if the payload's project reference is one the row can give back. */
  lemma BindingRoundTrip(sha: Path -> Digest, p: Payload)
    requires FromPayload(sha, p).Ok?
    ensures var b := FromPayload(sha, p).value;
      FromSession(sha, Stored(b)) == Ok(Some(b)) <==> Rebuildable(sha, p)
  {
    hide FromPayload, FromSession, StableRef, Canonical, Resolve;
    var b := FromPayload(sha, p).value;
    RebuiltBinding(sha, p);
    PayloadBinding(sha, p);
    DerivedIsStable(sha, b.projectRel);
    assert Internal(DEFAULT_PROJECT);
    if p.projectRef.Some? && p.projectRel.None? && Internal(b.project) {
      InternalProjectPath(sha, p);
    }
  }

  /** A reserved reference is never `.` or `..`, so its default project path is spelled literally. */
  lemma InternalProjectPath(sha: Path -> Digest, p: Payload)
    requires FromPayload(sha, p).Ok?
    requires p.projectRef.Some? && p.projectRel.None? && Internal(p.projectRef.value)
    ensures FromPayload(sha, p).value.projectRel == ["workspace", "projects", p.projectRef.value]
  {
    PayloadBinding(sha, p);
    var b, ref := FromPayload(sha, p).value, p.projectRef.value;
    assert ref[0] == ref[..2][0] == '_';
    assert Canonical(["workspace", "projects", ref]);
    ResolveAppend(b.userPath, ["workspace", "projects", ref]);
  }

  /** Hence the store accepts a message on a session exactly when its binding is rebuildable. */
  lemma RebuiltBindingIsAccepted(sha: Path -> Digest, p: Payload)
    requires FromPayload(sha, p).Ok?
    ensures var row := Stored(FromPayload(sha, p).value);
      && FromSession(sha, row).Ok?
      && RequireBinding(row, FromSession(sha, row).value) ==
           if Rebuildable(sha, p) then Ok(()) else Err(IdempotencyConflict)
  {
    var b := FromPayload(sha, p).value;
    PayloadBinding(sha, p);
    RebuiltBinding(sha, p);
    BindingRoundTrip(sha, p);
    ResolveAppend(b.storageRoot.value, b.userRel);
    assert b.projectPath[|b.userPath|..] == b.projectRel;
  }

  /** A session created without a project reference and without a project path can never be sent a
      message: its rebuilt reference is the derived one, never `__default__`. */
  lemma DefaultProjectRejectsEveryMessage(sha: Path -> Digest, p: Payload)
    requires FromPayload(sha, p).Ok? && p.projectRef.None? && p.projectRel.None?
    ensures var row := Stored(FromPayload(sha, p).value);
      FromSession(sha, row).Ok? && RequireBinding(row, FromSession(sha, row).value) == Err(IdempotencyConflict)
  {
    RebuiltBindingIsAccepted(sha, p);
  }

  lemma DefaultProjectExample(sha: Path -> Digest)
    ensures var p := Payload(Some(RawPath(true, ["nas"])), Some(RawPath(false, ["alice"])), None, None);
      FromPayload(sha, p).Ok? && !Rebuildable(sha, p)
  {
    hide Bind, Resolve, DropDots;
    ResolveCanonical(["nas"]);
    DropDotsCanonical(["alice"]);
    DefaultBind(sha, ["nas"], ["alice"]);
  }

  /** Binding a user without a project always succeeds. */
  lemma DefaultBind(sha: Path -> Digest, root: Path, userRel: Path)
    requires Canonical(root) && Canonical(userRel) && userRel != []
    ensures Bind(sha, root, userRel, None, []).Ok?
  {
    ResolveAppend(root, userRel);
    ResolveAppend(root + userRel, ["workspace"]);
    UserRefIsStable(sha, userRel);
    assert StableRef(DEFAULT_PROJECT) && StableRef("platform");
    hide Resolve, UserRef, StableRef, Canonical;
  }

  lemma UserRefIsStable(sha: Path -> Digest, userRel: Path)
    ensures StableRef(UserRef(sha, userRel))
  {
    var ref := UserRef(sha, userRel);
    forall i | 0 <= i < |ref| ensures RefChar(ref[i]) {
      if i >= 2 { assert ref[i] == sha(userRel)[i - 2]; }
    }
  }
}
