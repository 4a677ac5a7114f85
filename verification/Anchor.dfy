/** Anchors: `tools/anchor_generator.py`, `tools/verify_anchor.py` and `tools/compare_anchor_contract.py`.
    A bundle maps relative paths to file contents. The SHA-256 digest (section 6.2 of FIPS 180-4), the
    canonical JSON encodings and Ed25519 (section 5.1 of RFC 8032) are parameters. */
module Anchor {
  import opened Text
  import opened Merkle

  type Bundle = map<string, string>

  datatype Leaf = Leaf(path: string, size: nat, sha256: string, leafHash: string)

  /** The manifest without its `signing` entry; `rest` holds the entries no check looks at. */
  datatype Core = Core(gitCommit: Option<string>, leafRule: string, leavesPath: Option<string>, leavesDigest: string,
                       leafCount: nat, merkleRoot: string, bundleManifestDigest: Option<string>, rest: string)

  datatype Manifest = Manifest(core: Core, signature: Option<string>, payloadDigest: string)

  /** The files an anchor consists of, as far as they exist. */
  datatype AnchorFiles = AnchorFiles(manifest: Option<Manifest>, leaves: Option<seq<Leaf>>, signature: Option<string>)

  datatype Names = Names(manifest: string, leaves: string, signature: string)
  {
    function All(): set<string> {
      {manifest, leaves, signature}
    }
  }

  function LeafText(path: string, fileDigest: string): string {
    path + ":" + fileDigest
  }

  /** The primitives both tools share: the hex digest, and the JSON texts of the leaves file and of a manifest core. */
  datatype Tools = Tools(sha: string -> string, pair: Pairing, leavesJson: seq<Leaf> -> string,
                         coreJson: Core -> string)
  {
    function Digest(text: string): string {
      SHA_PREFIX + sha(text)
    }

    function LeafFor(path: string, content: string): Leaf {
      Leaf(path, |content|, Digest(content), Digest(LeafText(path, Digest(content))))
    }
  }

  const LEAF_RULE := "sha256(relpath + ':' + sha256(file_bytes))"

  // ----- leaves

  predicate Covered(path: string, excluded: set<string>) {
    path !in excluded && !StartsWith(path, ".git/")
  }

  function CoveredPart(bundle: Bundle, excluded: set<string>): Bundle {
    map path | path in bundle && Covered(path, excluded) :: bundle[path]
  }

  function Paths(leaves: seq<Leaf>): seq<string> {
    seq(|leaves|, i requires 0 <= i < |leaves| => leaves[i].path)
  }

  /** The leaves are those of the covered files, sorted by path. */
  ghost predicate IsListing(tools: Tools, covered: Bundle, leaves: seq<Leaf>) {
    && StrictlySorted(Paths(leaves))
    && (forall path :: path in Paths(leaves) <==> path in covered)
    && (forall leaf :: leaf in leaves ==> leaf.path in covered && leaf == tools.LeafFor(leaf.path, covered[leaf.path]))
  }

  /** A leaf of a file: its path, its length, the digest of its content, and the digest of path and digest. */
  predicate Describes(tools: Tools, leaf: Leaf, path: string, content: string) {
    && leaf.path == path && leaf.size == |content| && leaf.sha256 == "sha256:" + tools.sha(content)
    && leaf.leafHash == "sha256:" + tools.sha(path + ":" + leaf.sha256)
  }

  /** What belongs to the repository's own `.git` directory. */
  predicate InGit(path: string) {
    |path| >= 5 && path[..5] == ".git/"
  }

  /** One leaf for every file that is neither excluded nor in `.git`, sorted by path. */
  ghost predicate Lists(tools: Tools, bundle: Bundle, excluded: set<string>, leaves: seq<Leaf>) {
    && (forall i, j :: 0 <= i < j < |leaves| ==> Less(leaves[i].path, leaves[j].path))
    && (forall i :: 0 <= i < |leaves| ==>
          leaves[i].path in bundle && Describes(tools, leaves[i], leaves[i].path, bundle[leaves[i].path]))
    && (forall path :: (exists i :: 0 <= i < |leaves| && leaves[i].path == path) <==>
                         path in bundle && path !in excluded && !InGit(path))
  }

  lemma CoveredMeans(bundle: Bundle, excluded: set<string>, path: string)
    ensures path in CoveredPart(bundle, excluded) <==> path in bundle && path !in excluded && !InGit(path)
    ensures path in CoveredPart(bundle, excluded) ==> CoveredPart(bundle, excluded)[path] == bundle[path]
  {
    assert |".git/"| == 5;
  }

  /** A listing of the covered part lists the bundle. */
  lemma ListingMeans(tools: Tools, bundle: Bundle, excluded: set<string>, leaves: seq<Leaf>)
    requires IsListing(tools, CoveredPart(bundle, excluded), leaves)
    ensures Lists(tools, bundle, excluded, leaves)
  {
    forall i, j | 0 <= i < j < |leaves| ensures Less(leaves[i].path, leaves[j].path) {
      assert Less(Paths(leaves)[i], Paths(leaves)[j]);
    }
    forall i | 0 <= i < |leaves|
      ensures leaves[i].path in bundle && Describes(tools, leaves[i], leaves[i].path, bundle[leaves[i].path])
    {
      assert leaves[i] in leaves;
      CoveredMeans(bundle, excluded, leaves[i].path);
    }
    forall path ensures (exists i :: 0 <= i < |leaves| && leaves[i].path == path) <==>
                          path in bundle && path !in excluded && !InGit(path)
    {
      CoveredMeans(bundle, excluded, path);
      if path in Paths(leaves) {
        var i :| 0 <= i < |leaves| && Paths(leaves)[i] == path;
        assert leaves[i].path == path;
      }
      if i :| 0 <= i < |leaves| && leaves[i].path == path { assert Paths(leaves)[i] == path; }
    }
  }

  /** The first loop of `_collect_leaves`: the files of the walk that are not excluded. */
  method CoveredFiles(walk: seq<string>, excluded: set<string>) returns (files: seq<string>)
    requires Distinct(walk)
    ensures Distinct(files) && forall path :: path in files <==> path in walk && Covered(path, excluded)
  {
    files := [];
    for i := 0 to |walk|
      invariant forall path :: path in files <==> path in walk[..i] && Covered(path, excluded)
      invariant Distinct(files)
    {
      assert walk[i] !in walk[..i];
      if walk[i] !in excluded && !StartsWith(walk[i], ".git/") { files := files + [walk[i]]; }
    }
    assert walk[..|walk|] == walk;
  }

  /** The second loop: a leaf for each file. */
  method ListLeaves(tools: Tools, bundle: Bundle, files: seq<string>) returns (leaves: seq<Leaf>)
    requires forall path :: path in files ==> path in bundle
    ensures Paths(leaves) == files
    ensures forall leaf :: leaf in leaves ==>
              leaf.path in files && leaf == tools.LeafFor(leaf.path, bundle[leaf.path])
  {
    leaves := [];
    for i := 0 to |files|
      invariant |leaves| == i && Paths(leaves) == files[..i]
      invariant forall leaf :: leaf in leaves ==>
                  leaf.path in files && leaf == tools.LeafFor(leaf.path, bundle[leaf.path])
    {
      var content := bundle[files[i]];
      var fileDigest := tools.Digest(content);
      var leafHash := tools.Digest(files[i] + ":" + fileDigest);
      leaves := leaves + [Leaf(files[i], |content|, fileDigest, leafHash)];
    }
  }

  /** `_collect_leaves`, for whatever order the directory walk enumerates the files in. */
  method CollectLeaves(tools: Tools, bundle: Bundle, walk: seq<string>, excluded: set<string>)
    returns (leaves: seq<Leaf>)
    requires Distinct(walk) && forall path :: path in walk <==> path in bundle
    ensures IsListing(tools, CoveredPart(bundle, excluded), leaves) && Lists(tools, bundle, excluded, leaves)
  {
    var files := CoveredFiles(walk, excluded);
    SortOfDistinct(files);
    SortCorrect(files);
    leaves := ListLeaves(tools, bundle, Sort(files));
    ListingMeans(tools, bundle, excluded, leaves);
  }

  /** The covered files have one listing. */
  lemma ListingUnique(tools: Tools, covered: Bundle, a: seq<Leaf>, b: seq<Leaf>)
    requires IsListing(tools, covered, a) && IsListing(tools, covered, b)
    ensures a == b
  {
    StrictlySortedUnique(Paths(a), Paths(b));
    forall i | 0 <= i < |a| ensures a[i] == b[i] {
      assert Paths(a)[i] == Paths(b)[i];
      assert a[i] in a && b[i] in b;
    }
  }

  lemma DigestInjective(tools: Tools, x: string, y: string, among: set<string>)
    requires x in among && y in among && NoStringCollision(tools.sha, among)
    requires tools.Digest(x) == tools.Digest(y)
    ensures x == y
  {
    assert tools.sha(x) == tools.Digest(x)[|SHA_PREFIX|..] == tools.Digest(y)[|SHA_PREFIX|..] == tools.sha(y);
  }

  lemma LeafOf(tools: Tools, covered: Bundle, leaves: seq<Leaf>, path: string) returns (leaf: Leaf)
    requires IsListing(tools, covered, leaves) && path in covered
    ensures leaf in leaves && leaf == tools.LeafFor(path, covered[path])
  {
    assert path in Paths(leaves);
    var i :| 0 <= i < |leaves| && Paths(leaves)[i] == path;
    leaf := leaves[i];
  }

  /** The digest tells every file of `a` from a different file of `b` at the same path. */
  ghost predicate ToldApart(tools: Tools, a: Bundle, b: Bundle) {
    forall path :: path in a && path in b && tools.sha(a[path]) == tools.sha(b[path]) ==> a[path] == b[path]
  }

  lemma SameDigestSameSha(tools: Tools, x: string, y: string)
    requires tools.Digest(x) == tools.Digest(y)
    ensures tools.sha(x) == tools.sha(y)
  {
    assert tools.sha(x) == tools.Digest(x)[|SHA_PREFIX|..] == tools.Digest(y)[|SHA_PREFIX|..] == tools.sha(y);
  }

  /** If the digest tells them apart, a listing belongs to one set of files. */
  lemma ListingDeterminesFiles(tools: Tools, a: Bundle, b: Bundle, leaves: seq<Leaf>)
    requires IsListing(tools, a, leaves) && IsListing(tools, b, leaves) && ToldApart(tools, a, b)
    ensures a == b
  {
    forall path ensures path in a <==> path in b { assert path in Paths(leaves) <==> path in a; }
    forall path | path in a ensures a[path] == b[path] {
      var leaf := LeafOf(tools, a, leaves, path);
      SameDigestSameSha(tools, a[path], b[path]);
    }
  }

  function LeafHashes(leaves: seq<Leaf>): seq<string> {
    seq(|leaves|, i requires 0 <= i < |leaves| => leaves[i].leafHash)
  }

  function AnchorRoot(tools: Tools, leaves: seq<Leaf>): string {
    if leaves == [] then tools.Digest("")
    else SHA_PREFIX + Root(tools.pair, StripPrefixes(LeafHashes(leaves)))
  }

  // ----- generating

  function BundleManifestDigest(tools: Tools, bundle: Bundle): Option<string> {
    if "bundle_manifest.json" in bundle then Some(tools.Digest(bundle["bundle_manifest.json"])) else None
  }

  /** What `generate_anchor` writes for the given leaves. */
  ghost predicate Generated(tools: Tools, names: Names, bundle: Bundle, exclude: set<string>,
                            sign: Option<string -> string>, files: AnchorFiles)
  {
    && files.leaves.Some? && files.manifest.Some?
    && IsListing(tools, CoveredPart(bundle, exclude + names.All()), files.leaves.value)
    && var core, leaves := files.manifest.value.core, files.leaves.value;
    && core.leafRule == LEAF_RULE && core.leavesPath == Some(names.leaves)
    && core.leavesDigest == tools.Digest(tools.leavesJson(leaves))
    && core.leafCount == |leaves| && core.merkleRoot == AnchorRoot(tools, leaves)
    && core.bundleManifestDigest == BundleManifestDigest(tools, bundle)
    && files.manifest.value.payloadDigest == tools.Digest(tools.coreJson(core))
    && files.signature == files.manifest.value.signature
    && files.signature == if sign.Some? then Some(sign.value(tools.coreJson(core))) else None
  }

  /** The root of the tree over these leaves: the digest of nothing, or of the leaf hashes without their prefix. */
  ghost predicate IsRoot(tools: Tools, leaves: seq<Leaf>, root: string) {
    if leaves == [] then root == "sha256:" + tools.sha("")
    else exists nodes ::
           && |nodes| == |leaves| && (forall i :: 0 <= i < |leaves| ==> leaves[i].leafHash == "sha256:" + nodes[i])
           && root == "sha256:" + Root(tools.pair, nodes)
  }

  /** The files `generate_anchor` writes, entry by entry. */
  ghost predicate Wrote(tools: Tools, names: Names, bundle: Bundle, exclude: set<string>, gitCommit: Option<string>,
                        rest: string, sign: Option<string -> string>, files: AnchorFiles)
  {
    && files.leaves.Some? && files.manifest.Some?
    && var leaves, m := files.leaves.value, files.manifest.value;
    && Lists(tools, bundle, exclude + {names.manifest, names.leaves, names.signature}, leaves)
    && m.core.gitCommit == gitCommit && m.core.rest == rest
    && m.core.leafRule == "sha256(relpath + ':' + sha256(file_bytes))" && m.core.leavesPath == Some(names.leaves)
    && m.core.leavesDigest == "sha256:" + tools.sha(tools.leavesJson(leaves)) && m.core.leafCount == |leaves|
    && IsRoot(tools, leaves, m.core.merkleRoot)
    && m.core.bundleManifestDigest == (if "bundle_manifest.json" in bundle
                                       then Some("sha256:" + tools.sha(bundle["bundle_manifest.json"])) else None)
    && m.payloadDigest == "sha256:" + tools.sha(tools.coreJson(m.core))
    && m.signature == (if sign.Some? then Some(sign.value(tools.coreJson(m.core))) else None)
    && files.signature == m.signature
  }

  lemma RootMeans(tools: Tools, covered: Bundle, leaves: seq<Leaf>)
    requires IsListing(tools, covered, leaves)
    ensures IsRoot(tools, leaves, AnchorRoot(tools, leaves))
  {
    var nodes := StripPrefixes(LeafHashes(leaves));
    forall i | 0 <= i < |leaves| ensures leaves[i].leafHash == "sha256:" + nodes[i] {
      assert leaves[i] in leaves;
      assert nodes[i] == StripPrefix(leaves[i].leafHash);
    }
  }

  method GenerateAnchor(tools: Tools, names: Names, bundle: Bundle, walk: seq<string>, exclude: set<string>,
                        gitCommit: Option<string>, rest: string, sign: Option<string -> string>)
    returns (files: AnchorFiles)
    requires Distinct(walk) && forall path :: path in walk <==> path in bundle
    ensures Generated(tools, names, bundle, exclude, sign, files)
    ensures Wrote(tools, names, bundle, exclude, gitCommit, rest, sign, files)
  {
    var excluded := exclude + {names.manifest, names.leaves, names.signature};
    var leaves := CollectLeaves(tools, bundle, walk, excluded);
    var leavesDigest := tools.Digest(tools.leavesJson(leaves));
    var leafHashes := LeafHashes(leaves);
    var root := BuildMerkleRoot(tools.pair, leafHashes, tools.Digest(""));
    var core := Core(gitCommit, LEAF_RULE, Some(names.leaves), leavesDigest, |leaves|, root,
                     BundleManifestDigest(tools, bundle), rest);
    var payload := tools.coreJson(core);
    var signature := None;
    if sign.Some? { signature := Some(sign.value(payload)); }
    files := AnchorFiles(Some(Manifest(core, signature, tools.Digest(payload))), Some(leaves), signature);
    RootMeans(tools, CoveredPart(bundle, excluded), leaves);
  }

  // ----- verifying

  function ExcludeNames(manifest: Manifest, names: Names): set<string> {
    names.All() + if manifest.core.leavesPath.Some? then {manifest.core.leavesPath.value} else {}
  }

  /** `_verify_signature`: the errors of a signature on a payload; `None` when there is no public key file. */
  type Verifier = Option<(string, string) -> seq<string>>

  /** The manifest's signature is absent or empty, or everything about it checks. */
  predicate SignatureAccepted(tools: Tools, verifier: Verifier, files: AnchorFiles)
    requires files.manifest.Some?
  {
    var m := files.manifest.value;
    (m.signature.Some? && m.signature.value != "") ==>
      && verifier.Some? && files.signature.Some? && Strip(files.signature.value) == m.signature.value
      && (m.payloadDigest != "" ==> m.payloadDigest == tools.Digest(tools.coreJson(m.core)))
      && verifier.value(tools.coreJson(m.core), m.signature.value) == []
  }

  /** The content checks of `verify_anchor`, against the leaves computed from the bundle as it is now. */
  predicate ContentAccepted(tools: Tools, files: AnchorFiles, computed: seq<Leaf>)
    requires files.manifest.Some? && files.leaves.Some?
  {
    && files.leaves.value == computed
    && files.manifest.value.core.leavesDigest == tools.Digest(tools.leavesJson(computed))
    && files.manifest.value.core.merkleRoot == AnchorRoot(tools, computed)
  }

  function ContentErrors(tools: Tools, files: AnchorFiles, computed: seq<Leaf>): seq<string>
    requires files.manifest.Some? && files.leaves.Some?
  {
    var core := files.manifest.value.core;
    (if files.leaves.value != computed then ["leaves do not match bundle contents"] else [])
    + (if core.leavesDigest != tools.Digest(tools.leavesJson(computed)) then ["leaves_digest mismatch"] else [])
    + (if core.merkleRoot != AnchorRoot(tools, computed) then ["merkle_root mismatch"] else [])
  }

  function SignatureErrors(tools: Tools, verifier: Verifier, files: AnchorFiles): (errors: seq<string>)
    requires files.manifest.Some?
    ensures errors == [] <==> SignatureAccepted(tools, verifier, files)
  {
    var m := files.manifest.value;
    if m.signature.None? || m.signature.value == "" then []
    else if verifier.None? then ["public key not found for signature verification"]
    else if files.signature.None? then ["signature file not found"]
    else
      (if Strip(files.signature.value) != m.signature.value then ["signature file mismatch"] else [])
      + (if m.payloadDigest != "" && m.payloadDigest != tools.Digest(tools.coreJson(m.core)) then
           ["signed_payload_digest mismatch"]
         else verifier.value(tools.coreJson(m.core), m.signature.value))
  }

  /** Which content errors are reported. */
  lemma ContentErrorsMean(tools: Tools, files: AnchorFiles, computed: seq<Leaf>, m: string)
    requires files.manifest.Some? && files.leaves.Some?
    ensures m in ContentErrors(tools, files, computed) <==>
              || (m == "leaves do not match bundle contents" && files.leaves.value != computed)
              || (m == "leaves_digest mismatch"
                  && files.manifest.value.core.leavesDigest != "sha256:" + tools.sha(tools.leavesJson(computed)))
              || (m == "merkle_root mismatch" && files.manifest.value.core.merkleRoot != AnchorRoot(tools, computed))
  {}

  /** Which signature errors are reported: none without a signature; the missing key or file; otherwise those of
      the file, and those of the payload: its digest, or else the errors of the check itself. */
  lemma SignatureErrorsMean(tools: Tools, verifier: Verifier, files: AnchorFiles, m: string)
    requires files.manifest.Some?
    ensures var s, d := files.manifest.value.signature, files.manifest.value.payloadDigest;
            var payload := tools.coreJson(files.manifest.value.core);
            var wrong := d != "" && d != "sha256:" + tools.sha(payload);
            m in SignatureErrors(tools, verifier, files) <==>
              && s.Some? && s.value != ""
              && if verifier.None? then m == "public key not found for signature verification"
                 else if files.signature.None? then m == "signature file not found"
                 else
                   || (m == "signature file mismatch" && Strip(files.signature.value) != s.value)
                   || (wrong && m == "signed_payload_digest mismatch")
                   || (!wrong && m in verifier.value(payload, s.value))
  {}

  /** What `verify_anchor` answers for a bundle, whatever order it is walked in. */
  ghost predicate Accepts(tools: Tools, names: Names, bundle: Bundle, files: AnchorFiles, verifier: Verifier) {
    && files.manifest.Some? && files.leaves.Some? && SignatureAccepted(tools, verifier, files)
    && exists computed :: && IsListing(tools, CoveredPart(bundle, ExcludeNames(files.manifest.value, names)), computed)
                          && ContentAccepted(tools, files, computed)
  }

  method VerifySignature(tools: Tools, verifier: Verifier, files: AnchorFiles) returns (errors: seq<string>)
    requires files.manifest.Some?
    ensures errors == SignatureErrors(tools, verifier, files)
  {
    errors := [];
    var m := files.manifest.value;
    if m.signature.Some? && m.signature.value != "" {
      if verifier.None? {
        errors := errors + ["public key not found for signature verification"];
      } else if files.signature.None? {
        errors := errors + ["signature file not found"];
      } else {
        if Strip(files.signature.value) != m.signature.value { errors := errors + ["signature file mismatch"]; }
        var payload := tools.coreJson(m.core);
        if m.payloadDigest != "" && m.payloadDigest != tools.Digest(payload) {
          errors := errors + ["signed_payload_digest mismatch"];
        } else {
          errors := errors + verifier.value(payload, m.signature.value);
        }
      }
    }
  }

  /** The checks of `verify_anchor` on leaves, leaves digest and root. */
  method VerifyContent(tools: Tools, files: AnchorFiles, leaves: seq<Leaf>)
    returns (errors: seq<string>, root: string)
    requires files.manifest.Some? && files.leaves.Some?
    ensures errors == ContentErrors(tools, files, leaves) && root == AnchorRoot(tools, leaves)
  {
    errors := [];
    var core := files.manifest.value.core;
    if files.leaves.value != leaves { errors := errors + ["leaves do not match bundle contents"]; }
    if core.leavesDigest != tools.Digest(tools.leavesJson(leaves)) { errors := errors + ["leaves_digest mismatch"]; }
    root := BuildMerkleRoot(tools.pair, LeafHashes(leaves), tools.Digest(""));
    if core.merkleRoot != root { errors := errors + ["merkle_root mismatch"]; }
  }

  /** `verify_anchor`: reports the failed checks on the listing of the bundle, and recomputes its root. */
  method VerifyAnchor(tools: Tools, names: Names, bundle: Bundle, walk: seq<string>, files: AnchorFiles,
                      verifier: Verifier) returns (errors: seq<string>, root: Option<string>)
    requires Distinct(walk) && forall path :: path in walk <==> path in bundle
    ensures errors == [] <==> Accepts(tools, names, bundle, files, verifier)
    ensures files.manifest.None? || files.leaves.None? ==> |errors| == 1 && root == None
    ensures files.manifest.Some? && files.leaves.Some? ==>
              exists computed ::
                && IsListing(tools, CoveredPart(bundle, ExcludeNames(files.manifest.value, names)), computed)
                && errors == ContentErrors(tools, files, computed) + SignatureErrors(tools, verifier, files)
                && root == Some(AnchorRoot(tools, computed))
  {
    if files.manifest.None? { return ["manifest not found"], None; }
    if files.leaves.None? { return ["leaves not found"], None; }
    var leaves := CollectLeaves(tools, bundle, walk, ExcludeNames(files.manifest.value, names));
    var computedRoot;
    errors, computedRoot := VerifyContent(tools, files, leaves);
    var signatureErrors := VerifySignature(tools, verifier, files);
    errors := errors + signatureErrors;
    root := Some(computedRoot);
    AcceptsMeans(tools, names, bundle, files, verifier, leaves);
  }

  lemma AcceptsMeans(tools: Tools, names: Names, bundle: Bundle, files: AnchorFiles, verifier: Verifier,
                     leaves: seq<Leaf>)
    requires files.manifest.Some? && files.leaves.Some?
    requires IsListing(tools, CoveredPart(bundle, ExcludeNames(files.manifest.value, names)), leaves)
    ensures Accepts(tools, names, bundle, files, verifier) <==>
              ContentErrors(tools, files, leaves) + SignatureErrors(tools, verifier, files) == []
  {
    var covered := CoveredPart(bundle, ExcludeNames(files.manifest.value, names));
    forall computed | IsListing(tools, covered, computed) ensures computed == leaves {
      ListingUnique(tools, covered, computed, leaves);
    }
  }

  /** The verifier's key accepts what the signing key signs, and a signature is non-empty hex. */
  ghost predicate KeysMatch(sign: Option<string -> string>, verifier: Verifier) {
    sign.Some? ==>
      && verifier.Some?
      && forall m: string ::
           verifier.value(m, sign.value(m)) == [] && sign.value(m) != "" && Strip(sign.value(m)) == sign.value(m)
  }

  // ----- the round trip

  /** With matching keys and a digest that tells the covered files of the two times apart, an anchor
      generated for `bundle` is accepted for `later` exactly when what the verifier covers of `later` is what
      the generator covered of `bundle`: no covered file added, removed or changed. */
  lemma RoundTrip(tools: Tools, names: Names, bundle: Bundle, exclude: set<string>, sign: Option<string -> string>,
                  files: AnchorFiles, names': Names, later: Bundle, verifier: Verifier)
    requires Generated(tools, names, bundle, exclude, sign, files) && KeysMatch(sign, verifier)
    requires ToldApart(tools, CoveredPart(bundle, exclude + names.All()),
                       CoveredPart(later, names'.All() + {names.leaves}))
    ensures Accepts(tools, names', later, files, verifier) <==>
              CoveredPart(later, names'.All() + {names.leaves}) == CoveredPart(bundle, exclude + names.All())
  {
    var before := CoveredPart(bundle, exclude + names.All());
    var after := CoveredPart(later, names'.All() + {names.leaves});
    var manifest, leaves := files.manifest.value, files.leaves.value;
    assert ExcludeNames(manifest, names') == names'.All() + {names.leaves};
    if after == before { assert IsListing(tools, after, leaves) && ContentAccepted(tools, files, leaves); }
    if Accepts(tools, names', later, files, verifier) {
      var computed :| IsListing(tools, after, computed) && ContentAccepted(tools, files, computed);
      ListingDeterminesFiles(tools, before, after, leaves);
    }
  }

  /** The usual case, for the names the generator used and nothing else excluded: writing the anchor's own
      files into the bundle, or into a directory outside of it, keeps the anchor valid. */
  lemma FreshAnchorAccepted(tools: Tools, names: Names, bundle: Bundle, sign: Option<string -> string>,
                            files: AnchorFiles, written: Bundle, verifier: Verifier)
    requires Generated(tools, names, bundle, {}, sign, files) && KeysMatch(sign, verifier)
    requires written.Keys <= names.All()
    ensures Accepts(tools, names, bundle + written, files, verifier)
  {
    var before := CoveredPart(bundle, {} + names.All());
    var after := CoveredPart(bundle + written, names.All() + {names.leaves});
    assert {} + names.All() == names.All() == names.All() + {names.leaves};
    assert after == before;
    assert ExcludeNames(files.manifest.value, names) == names.All() + {names.leaves};
    assert IsListing(tools, after, files.leaves.value) && ContentAccepted(tools, files, files.leaves.value);
  }

  /** Files excluded only at generation make the verifier reject, as long as they are there and are not
      excluded by name: the manifest does not record the exclusions. */
  lemma ExtraExclusionRejected(tools: Tools, names: Names, bundle: Bundle, exclude: set<string>,
                               sign: Option<string -> string>, files: AnchorFiles, verifier: Verifier, path: string)
    requires Generated(tools, names, bundle, exclude, sign, files)
    requires path in bundle && path in exclude && Covered(path, names.All())
    ensures !Accepts(tools, names, bundle, files, verifier)
  {
    var after := CoveredPart(bundle, ExcludeNames(files.manifest.value, names));
    assert path in after && path !in CoveredPart(bundle, exclude + names.All());
  }

  // ----- comparing

  function LowerHex(): set<char> {
    {'0', '1', '2', '3', '4', '5', '6', '7', '8', '9', 'a', 'b', 'c', 'd', 'e', 'f'}
  }

  /** `normalize_sha` */
  function NormalizeSha(value: Option<string>): Option<string> {
    if value.None? then None else
      var lowered := Lower(Strip(value.value));
      var normalized := if "sha:" <= lowered then lowered[4..] else lowered;
      if normalized == "" || exists c :: c in normalized && c !in LowerHex() then None else Some(normalized)
  }

  function GitCommitMatches(a: Option<string>, b: Option<string>): bool {
    var x, y := NormalizeSha(a), NormalizeSha(b);
    if x.Some? && y.Some? then
      x == y || (|x.value| >= 7 && |y.value| >= 7 && (y.value <= x.value || x.value <= y.value))
    else a == b
  }

  datatype Field = GitCommit | LeafRule | LeafCount | BundleManifest | Leaves

  const CONTRACT_FIELDS := [GitCommit, LeafRule, LeafCount, BundleManifest, Leaves]

  predicate FieldMatches(field: Field, a: Core, b: Core) {
    match field
    case GitCommit => GitCommitMatches(a.gitCommit, b.gitCommit)
    case LeafRule => a.leafRule == b.leafRule
    case LeafCount => a.leafCount == b.leafCount
    case BundleManifest => a.bundleManifestDigest == b.bundleManifestDigest
    case Leaves => a.leavesDigest == b.leavesDigest
  }

  ghost predicate ContractsMatch(a: Core, b: Core) {
    forall field: Field :: FieldMatches(field, a, b)
  }

  lemma AllFieldsListed(field: Field)
    ensures field in CONTRACT_FIELDS
  {
    assert CONTRACT_FIELDS[0] == GitCommit && CONTRACT_FIELDS[1] == LeafRule && CONTRACT_FIELDS[2] == LeafCount
           && CONTRACT_FIELDS[3] == BundleManifest && CONTRACT_FIELDS[4] == Leaves;
  }

  predicate SameLeaf(a: Leaf, b: Leaf) {
    a.path == b.path && a.leafHash == b.leafHash
  }

  /** The least index at which one list has a leaf that the other has not, or has with another path or hash. */
  predicate FirstDifference(a: seq<Leaf>, b: seq<Leaf>, index: Option<nat>) {
    var n := if index.Some? then index.value else |a|;
    && n <= |a| && n <= |b| && (forall i :: 0 <= i < n ==> SameLeaf(a[i], b[i]))
    && if index.None? then |a| == |b|
       else (n < |a| || n < |b|) && (n < |a| && n < |b| ==> !(a[n].path == b[n].path && a[n].leafHash == b[n].leafHash))
  }

  /** `_first_divergent_leaf`: the least index at which the lists differ in path or leaf hash. */
  method FirstDivergentLeaf(a: seq<Leaf>, b: seq<Leaf>) returns (index: Option<nat>)
    ensures FirstDifference(a, b, index)
  {
    var limit := if |a| <= |b| then |a| else |b|;
    for idx := 0 to limit
      invariant forall i :: 0 <= i < idx ==> SameLeaf(a[i], b[i])
    {
      if a[idx].path != b[idx].path || a[idx].leafHash != b[idx].leafHash { return Some(idx); }
    }
    if |a| != |b| { return Some(limit); }
    index := None;
  }

  datatype Comparison = ContractMismatch | Green | MerkleMismatch(divergent: Option<nat>)

  /** The decision of `main` in `compare_anchor_contract.py`. */
  method Compare(a: Core, b: Core, aLeaves: seq<Leaf>, bLeaves: seq<Leaf>) returns (r: Comparison)
    ensures r.ContractMismatch? <==>
              !(GitCommitMatches(a.gitCommit, b.gitCommit) && a.leafRule == b.leafRule && a.leafCount == b.leafCount
                && a.bundleManifestDigest == b.bundleManifestDigest && a.leavesDigest == b.leavesDigest)
    ensures !r.ContractMismatch? ==> (r.Green? <==> a.merkleRoot == b.merkleRoot)
    ensures r.MerkleMismatch? ==> FirstDifference(aLeaves, bLeaves, r.divergent)
    ensures ContractsMatch(a, b) <==> !r.ContractMismatch?
  {
    var contractMatch := true;
    for i := 0 to |CONTRACT_FIELDS|
      invariant contractMatch && forall j :: 0 <= j < i ==> FieldMatches(CONTRACT_FIELDS[j], a, b)
    {
      if !FieldMatches(CONTRACT_FIELDS[i], a, b) {
        contractMatch := false;
        break;
      }
    }
    if !contractMatch { return ContractMismatch; }
    assert CONTRACT_FIELDS[0] == GitCommit && CONTRACT_FIELDS[1] == LeafRule && CONTRACT_FIELDS[2] == LeafCount
           && CONTRACT_FIELDS[3] == BundleManifest && CONTRACT_FIELDS[4] == Leaves;
    forall field: Field ensures FieldMatches(field, a, b) { AllFieldsListed(field); }
    if a.merkleRoot == b.merkleRoot { return Green; }
    var divergent := FirstDivergentLeaf(aLeaves, bLeaves);
    r := MerkleMismatch(divergent);
  }

  /** For two generated anchors the contract decides the comparison: if the digest and the JSON encoding
      have no collision on the two leaves files, matching contract fields force the same leaves, hence the
      same root. */
  lemma ContractForcesRoot(tools: Tools, a: AnchorFiles, b: AnchorFiles, names: Names, names': Names, bundle: Bundle,
                           bundle': Bundle, exclude: set<string>, exclude': set<string>,
                           sign: Option<string -> string>, sign': Option<string -> string>)
    requires Generated(tools, names, bundle, exclude, sign, a) && Generated(tools, names', bundle', exclude', sign', b)
    requires LeavesTold(tools, a.leaves.value, b.leaves.value)
    requires ContractsMatch(a.manifest.value.core, b.manifest.value.core)
    ensures a.leaves == b.leaves && a.manifest.value.core.merkleRoot == b.manifest.value.core.merkleRoot
  {
    assert FieldMatches(Leaves, a.manifest.value.core, b.manifest.value.core);
    var la, lb := tools.leavesJson(a.leaves.value), tools.leavesJson(b.leaves.value);
    DigestInjective(tools, la, lb, {la, lb});
  }

  /** The digest of their JSON tells these two lists of leaves apart. */
  ghost predicate LeavesTold(tools: Tools, a: seq<Leaf>, b: seq<Leaf>) {
    && NoStringCollision(tools.sha, {tools.leavesJson(a), tools.leavesJson(b)})
    && (tools.leavesJson(a) == tools.leavesJson(b) ==> a == b)
  }

  /** If the digest tells the covered files apart as well, matching contracts mean the same files. */
  lemma ContractForcesFiles(tools: Tools, a: AnchorFiles, b: AnchorFiles, names: Names, names': Names, bundle: Bundle,
                            bundle': Bundle, exclude: set<string>, exclude': set<string>,
                            sign: Option<string -> string>, sign': Option<string -> string>)
    requires Generated(tools, names, bundle, exclude, sign, a) && Generated(tools, names', bundle', exclude', sign', b)
    requires LeavesTold(tools, a.leaves.value, b.leaves.value)
    requires ContractsMatch(a.manifest.value.core, b.manifest.value.core)
    requires ToldApart(tools, CoveredPart(bundle, exclude + names.All()),
                       CoveredPart(bundle', exclude' + names'.All()))
    ensures CoveredPart(bundle, exclude + names.All()) == CoveredPart(bundle', exclude' + names'.All())
  {
    ContractForcesRoot(tools, a, b, names, names', bundle, bundle', exclude, exclude', sign, sign');
    ListingDeterminesFiles(tools, CoveredPart(bundle, exclude + names.All()),
                           CoveredPart(bundle', exclude' + names'.All()), a.leaves.value);
  }

  /** The commit comparison is reflexive and symmetric on all values. */
  lemma CommitMatchSymmetric(a: Option<string>, b: Option<string>)
    ensures GitCommitMatches(a, a)
    ensures GitCommitMatches(a, b) <==> GitCommitMatches(b, a)
  {}

  predicate IsHex(s: string) {
    s != "" && forall i :: 0 <= i < |s| ==> '0' <= s[i] <= '9' || 'a' <= s[i] <= 'f'
  }

  lemma HexMeans(s: string)
    ensures IsHex(s) <==> s != "" && !exists c :: c in s && c !in LowerHex()
  {
    forall i | 0 <= i < |s| ensures s[i] in LowerHex() <==> '0' <= s[i] <= '9' || 'a' <= s[i] <= 'f' {}
    if IsHex(s) {
      forall c | c in s ensures c in LowerHex() {}
    } else if s != "" {
      var i :| 0 <= i < |s| && !('0' <= s[i] <= '9' || 'a' <= s[i] <= 'f');
      assert s[i] in s;
    }
  }

  /** A commit is normalized to what is left of it in lower case, without white space around it and without a
      leading `sha:`, if that is hexadecimal. */
  lemma NormalizeShaMeans(value: string)
    ensures var s := Lower(Strip(value));
            var digits := if |s| >= 4 && s[..4] == "sha:" then s[4..] else s;
            NormalizeSha(Some(value)) == if IsHex(digits) then Some(digits) else None
    ensures NormalizeSha(None) == None
  {
    var s := Lower(Strip(value));
    assert |"sha:"| == 4;
    HexMeans(if |s| >= 4 && s[..4] == "sha:" then s[4..] else s);
  }

  /** Hexadecimal commits match if they are equal, or if one of at least seven digits begins the other; other
      values match only themselves. */
  lemma CommitMatchMeans(a: Option<string>, b: Option<string>)
    ensures var x, y := NormalizeSha(a), NormalizeSha(b);
            GitCommitMatches(a, b) <==>
              if x.None? || y.None? then a == b
              else x == y || (|y.value| >= 7 && |x.value| >= |y.value| && x.value[..|y.value|] == y.value)
                   || (|x.value| >= 7 && |y.value| >= |x.value| && y.value[..|x.value|] == x.value)
  {}

  /** `b` links only commits that match each other. */
  ghost predicate TransitiveThrough(b: Option<string>) {
    forall a, c :: GitCommitMatches(a, b) && GitCommitMatches(b, c) ==> GitCommitMatches(a, c)
  }

  /** It is transitive through a commit exactly if that is not a hexadecimal one of seven digits or more: such
      a one is matched by its different continuations. */
  lemma CommitMatchTransitiveIff(b: Option<string>)
    ensures TransitiveThrough(b) <==> NormalizeSha(b).None? || |NormalizeSha(b).value| < 7
  {
    if NormalizeSha(b).Some? && |NormalizeSha(b).value| >= 7 {
      var s := NormalizeSha(b).value;
      var a, c := s + "0", s + "1";
      PlainSha(a);
      PlainSha(c);
      assert a[|s|] != c[|s|];
      assert GitCommitMatches(Some(a), b) && GitCommitMatches(b, Some(c)) && !GitCommitMatches(Some(a), Some(c));
    }
  }

  const ABBREVIATED := "abcdef1"
  const ONE_COMMIT := "abcdef12"
  const OTHER_COMMIT := "abcdef13"

  /** An abbreviated commit that matches two different ones. */
  lemma CommitMatchNotTransitive()
    ensures GitCommitMatches(Some(ONE_COMMIT), Some(ABBREVIATED))
    ensures GitCommitMatches(Some(ABBREVIATED), Some(OTHER_COMMIT))
    ensures !GitCommitMatches(Some(ONE_COMMIT), Some(OTHER_COMMIT))
  {
    PlainSha(ONE_COMMIT);
    PlainSha(ABBREVIATED);
    PlainSha(OTHER_COMMIT);
    assert ONE_COMMIT[7] != OTHER_COMMIT[7];
  }

  /** Lower-case hexadecimal digits are normal as they are. */
  lemma PlainSha(s: string)
    requires s != "" && forall c :: c in s ==> c in LowerHex()
    ensures NormalizeSha(Some(s)) == Some(s)
  {
    assert s[0] in s && s[|s| - 1] in s;
    assert Strip(s) == s;
    forall i | 0 <= i < |s| ensures LowerChar(s[i]) == s[i] { assert s[i] in s; }
    assert Lower(s) == s;
    assert "sha:"[0] == 's';
  }

  // ----- what the root binds

  /** The nodes the Merkle tree of these leaves is built on. */
  function Nodes(leaves: seq<Leaf>): seq<string> {
    StripPrefixes(LeafHashes(leaves))
  }

  /** The hashes have no collision on what went into these two trees, and tell the files apart. */
  ghost predicate TreesTold(tools: Tools, a: seq<Leaf>, b: seq<Leaf>) {
    && NoCollision(tools.pair, Hashed(tools.pair, Nodes(a)) + Hashed(tools.pair, Nodes(b)))
    && forall x, y :: x in a && y in b && x.leafHash == y.leafHash ==>
                        LeafText(x.path, x.sha256) == LeafText(y.path, y.sha256)
  }

  /** A leaf text can be taken apart, because file digests have one width. */
  lemma LeafTextTellsParts(path: string, d: string, path': string, d': string)
    requires |d| == |d'| && LeafText(path, d) == LeafText(path', d')
    ensures path == path' && d == d'
  {
    var text := LeafText(path, d);
    assert |path| == |path'|;
    assert path == text[..|path|] == path';
    assert d == text[|path| + 1..] == d';
  }

  lemma NodeOf(tools: Tools, covered: Bundle, leaves: seq<Leaf>, width: nat, i: nat)
    requires IsListing(tools, covered, leaves) && i < |leaves| && forall x :: |tools.sha(x)| == width
    ensures leaves[i].leafHash == SHA_PREFIX + Nodes(leaves)[i] && |leaves[i].sha256| == |SHA_PREFIX| + width
  {
    var leaf := leaves[i];
    assert leaf in leaves;
    assert StripPrefix(leaf.leafHash) == Nodes(leaves)[i];
  }

  lemma SameNodeSameLeaf(tools: Tools, covered: Bundle, a: seq<Leaf>, covered': Bundle, b: seq<Leaf>, width: nat,
                         i: nat)
    requires IsListing(tools, covered, a) && IsListing(tools, covered', b) && TreesTold(tools, a, b)
    requires forall x :: |tools.sha(x)| == width
    requires i < |a| && i < |b| && Nodes(a)[i] == Nodes(b)[i]
    ensures a[i].path == b[i].path && a[i].sha256 == b[i].sha256
  {
    NodeOf(tools, covered, a, width, i);
    NodeOf(tools, covered', b, width, i);
    assert a[i] in a && b[i] in b;
    LeafTextTellsParts(a[i].path, a[i].sha256, b[i].path, b[i].sha256);
  }

  /** Listings with one root and one length are of the same files. */
  lemma RootDeterminesListing(tools: Tools, covered: Bundle, a: seq<Leaf>, covered': Bundle, b: seq<Leaf>, width: nat)
    requires IsListing(tools, covered, a) && IsListing(tools, covered', b) && TreesTold(tools, a, b)
    requires (forall x :: |tools.sha(x)| == width) && ToldApart(tools, covered, covered')
    requires |a| == |b| && AnchorRoot(tools, a) == AnchorRoot(tools, b)
    ensures covered == covered'
  {
    if a != [] {
      assert Root(tools.pair, Nodes(a)) == AnchorRoot(tools, a)[|SHA_PREFIX|..] == Root(tools.pair, Nodes(b));
      RootBinds(tools.pair, Nodes(a), Nodes(b));
    }
    forall i | 0 <= i < |a| ensures a[i].path == b[i].path && a[i].sha256 == b[i].sha256 {
      SameNodeSameLeaf(tools, covered, a, covered', b, width, i);
    }
    SameEntries(tools, covered, a, covered', b);
  }

  lemma ListedAt(tools: Tools, covered: Bundle, leaves: seq<Leaf>, i: nat)
    requires IsListing(tools, covered, leaves) && i < |leaves|
    ensures leaves[i].path in covered && leaves[i].sha256 == tools.Digest(covered[leaves[i].path])
  {
    assert leaves[i] in leaves;
  }

  lemma PathListed(tools: Tools, covered: Bundle, leaves: seq<Leaf>, path: string) returns (i: nat)
    requires IsListing(tools, covered, leaves) && path in covered
    ensures i < |leaves| && leaves[i].path == path
  {
    assert path in Paths(leaves);
    i :| 0 <= i < |leaves| && Paths(leaves)[i] == path;
  }

  lemma SameEntries(tools: Tools, covered: Bundle, a: seq<Leaf>, covered': Bundle, b: seq<Leaf>)
    requires IsListing(tools, covered, a) && IsListing(tools, covered', b) && ToldApart(tools, covered, covered')
    requires |a| == |b| && forall i :: 0 <= i < |a| ==> a[i].path == b[i].path && a[i].sha256 == b[i].sha256
    ensures covered == covered'
  {
    forall path | path in covered ensures path in covered' && covered[path] == covered'[path] {
      var i := PathListed(tools, covered, a, path);
      ListedAt(tools, covered, a, i);
      ListedAt(tools, covered', b, i);
      SameDigestSameSha(tools, covered[path], covered'[path]);
    }
    forall path | path in covered' ensures path in covered {
      var i := PathListed(tools, covered', b, path);
      ListedAt(tools, covered, a, i);
    }
  }

  /** Two generated anchors with one root and one leaf count cover the same files, without looking at their
      leaves: the digests have one width, so paths and contents are told apart within a leaf text. */
  lemma RootDeterminesFiles(tools: Tools, a: AnchorFiles, b: AnchorFiles, names: Names, names': Names, bundle: Bundle,
                            bundle': Bundle, exclude: set<string>, exclude': set<string>,
                            sign: Option<string -> string>, sign': Option<string -> string>, width: nat)
    requires Generated(tools, names, bundle, exclude, sign, a) && Generated(tools, names', bundle', exclude', sign', b)
    requires (forall x :: |tools.sha(x)| == width) && TreesTold(tools, a.leaves.value, b.leaves.value)
    requires ToldApart(tools, CoveredPart(bundle, exclude + names.All()),
                       CoveredPart(bundle', exclude' + names'.All()))
    requires a.manifest.value.core.merkleRoot == b.manifest.value.core.merkleRoot
    requires a.manifest.value.core.leafCount == b.manifest.value.core.leafCount
    ensures CoveredPart(bundle, exclude + names.All()) == CoveredPart(bundle', exclude' + names'.All())
  {
    RootDeterminesListing(tools, CoveredPart(bundle, exclude + names.All()), a.leaves.value,
                          CoveredPart(bundle', exclude' + names'.All()), b.leaves.value, width);
  }
}
