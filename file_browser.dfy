/** The repository file browser: which names count as code files, the selection
    toggle, the expanded-directory set, and when a directory's children are loaded. */
module FileBrowser {
  import opened Strings
  import opened Sequences
  import opened Analyzer
  import opened Session

  /** The twelve extensions the browser treats as code. */
  const CodeExtensions: seq<string> := ["js", "jsx", "ts", "tsx", "py", "java", "cpp", "c", "cs", "php", "rb", "go"]

  /** `isCodeFile`: the lower-cased text after the last `.` is one of the code extensions. */
  predicate IsCodeFile(name: string)
  {
    Extension(name) in CodeExtensions
  }

  /** The two icons `getFileIcon` chooses between. */
  datatype Icon = CodeIcon | PlainIcon

  /** `getFileIcon`, which repeats the check of `isCodeFile` with its own copy of the list. */
  function FileIcon(name: string): Icon
  {
    var ext := ToLower(AfterLast(name, '.'));
    if ext in CodeExtensions then CodeIcon else PlainIcon
  }

  /** The code icon is shown exactly for the files that can be selected. */
  lemma FileIconIffCodeFile(name: string)
    ensures FileIcon(name) == CodeIcon <==> IsCodeFile(name)
    ensures FileIcon(name) == PlainIcon <==> !IsCodeFile(name)
  {
  }

  /** A name without `.` is tested as a whole, so a file called `c` or `go` is code. */
  lemma WholeNameTested(name: string)
    requires '.' !in name
    ensures IsCodeFile(name) <==> ToLower(name) in CodeExtensions
  {
    AfterLastNoSep(name, '.');
  }

  /** A name that is just a code extension, such as `c` or `go`, is a code file. */
  lemma BareExtensionIsCode(k: nat)
    requires k < |CodeExtensions|
    ensures IsCodeFile(CodeExtensions[k])
  {
    CodeExtensionsLower(k);
    AfterLastNoSep(CodeExtensions[k], '.');
  }

  lemma CodeExtensionsLower(k: nat)
    requires k < |CodeExtensions|
    ensures '.' !in CodeExtensions[k] && ToLower(CodeExtensions[k]) == CodeExtensions[k]
  {
  }

  /** A name with a `.` is tested on what follows its last `.` alone. */
  lemma ExtensionTested(stem: string, ext: string)
    requires '.' !in ext
    ensures IsCodeFile(stem + "." + ext) <==> ToLower(ext) in CodeExtensions
  {
    assert stem + "." + ext == stem + ['.'] + ext;
    AfterLastOfJoin(stem, '.', ext);
  }

  /** The check ignores case. */
  lemma CodeFileIgnoresCase(name: string)
    ensures IsCodeFile(ToLower(name)) <==> IsCodeFile(name)
  {
    AfterLastToLower(name);
    ToLowerIdempotent(AfterLast(name, '.'));
  }

  /** Every extension the analyzer handles is a code extension, so every file the page
      lists can be selected in the browser. */
  lemma AnalyzedAreCode(name: string)
    requires Extension(name) in AnalyzedExtensions
    ensures IsCodeFile(name)
  {
  }

  lemma ListedAreCode(item: FileItem)
    requires IsListed(item)
    ensures IsCodeFile(item.name)
  {
    ListedFilesAnalyzed(item);
  }

  // ---------------------------------------------------------------------------
  // The selection

  /** The filter predicate `f => f !== path`. */
  function OtherThan(path: string): string -> bool
  {
    (f: string) => f != path
  }

  /** `handleFileToggle`: a selected path is removed (every occurrence of it), any other
      path is appended. */
  function ToggleFile(selected: seq<string>, path: string): seq<string>
  {
    if path in selected then Filter(OtherThan(path), selected) else selected + [path]
  }

  /** Toggling a selected path removes it and keeps every other path as often as before
      and in the same order; toggling another path appends it and changes nothing else. */
  lemma ToggleFileShape(selected: seq<string>, path: string, x: string)
    ensures var r := ToggleFile(selected, path);
      && (path in selected ==> path !in r && IsSubseq(r, selected)
                               && (x != path ==> multiset(r)[x] == multiset(selected)[x]))
      && (path !in selected ==> |r| == |selected| + 1 && r[..|selected|] == selected && r[|selected|] == path)
  {
    if path in selected {
      FilterCount(OtherThan(path), selected, x);
      FilterCount(OtherThan(path), selected, path);
      FilterSubseq(OtherThan(path), selected);
    }
  }

  /** A path is selected after the toggle exactly when it was not selected before. */
  lemma ToggleFileFlips(selected: seq<string>, path: string)
    ensures path in ToggleFile(selected, path) <==> path !in selected
  {
    if path in selected {
      FilterCount(OtherThan(path), selected, path);
    }
  }

  /** Toggling a path that was not selected twice gives back the selection. */
  lemma ToggleAbsentTwice(selected: seq<string>, path: string)
    requires path !in selected
    ensures ToggleFile(ToggleFile(selected, path), path) == selected
  {
    var q := OtherThan(path);
    assert path in selected + [path];
    FilterAppend(q, selected, [path]);
    FilterAll(q, selected);
    assert Filter(q, [path]) == [] by {
      assert !q(path);
    }
  }

  /** Toggling a selected path twice does not give back the selection when the path was
      not its only last entry: the path moves to the end, and its duplicates are gone. */
  lemma TogglePresentTwice(selected: seq<string>, path: string)
    requires path in selected
    ensures ToggleFile(ToggleFile(selected, path), path) == Filter(OtherThan(path), selected) + [path]
  {
    FilterCount(OtherThan(path), selected, path);
  }

  /** `clearSelection`: nothing is selected. */
  function ClearSelection(): (r: seq<string>)
    ensures |r| == 0
  {
    []
  }

  /** After clearing, toggling a path selects that path alone. */
  lemma ToggleAfterClear(path: string)
    ensures ToggleFile(ClearSelection(), path) == [path]
  {
  }

  // ---------------------------------------------------------------------------
  // Expanded directories

  /** The set `handleDirToggle` computes: `path` removed when present, added otherwise. */
  function ToggleDir(dirs: set<string>, path: string): set<string>
  {
    if path in dirs then dirs - {path} else dirs + {path}
  }

  /** The toggle flips the membership of `path` and of no other path. */
  lemma ToggleDirFlips(dirs: set<string>, path: string, q: string)
    ensures q in ToggleDir(dirs, path) <==> (if q == path then q !in dirs else q in dirs)
  {
  }

  /** Toggling a directory twice restores the set. */
  lemma ToggleDirTwice(dirs: set<string>, path: string)
    ensures ToggleDir(ToggleDir(dirs, path), path) == dirs
  {
  }

  /** The browser's own state: the set of expanded directory paths. */
  class Browser {
    var expandedDirs: set<string>

    constructor ()
      ensures expandedDirs == {}
    {
      expandedDirs := {};
    }

    /** `handleDirToggle`: copy the set, add or delete `path` in the copy, store the copy. */
    method HandleDirToggle(path: string)
      modifies this
      ensures expandedDirs == ToggleDir(old(expandedDirs), path)
      ensures path in expandedDirs <==> path !in old(expandedDirs)
      ensures forall q :: q != path ==> (q in expandedDirs <==> q in old(expandedDirs))
    {
      var newExpanded := expandedDirs;
      if path in newExpanded {
        newExpanded := newExpanded - {path};
      } else {
        newExpanded := newExpanded + {path};
      }
      expandedDirs := newExpanded;
    }
  }

  // ---------------------------------------------------------------------------
  // Tree nodes

  /** A node's `children` state. It starts as the empty array. An answered load stores the
      whole reply body of the listing route, the object `{ files }`, not its file array. */
  datatype Children = NoChildren | ListingReply(files: seq<FileItem>)

  /** `children.length`: 0 for the initial empty array, undefined (`None`) for the reply
      object, which has no `length` field. */
  function Length(children: Children): Option<nat>
  {
    match children
    case NoChildren => Some(0)
    case ListingReply(_) => None
  }

  /** `children.length === 0`. */
  predicate NoneLoaded(children: Children)
  {
    Length(children) == Some(0)
  }

  /** Whether `loadChildren` sends a request: only for a directory, and not while a load
      is under way. */
  predicate LoadsChildren(item: FileItem, loading: bool)
  {
    item.kind == "dir" && !loading
  }

  /** Whether a click on a node asks for its children: a directory that is collapsed
      before the click, shows `children.length === 0` and is not loading. */
  predicate ClickLoads(item: FileItem, expanded: bool, children: Children, loading: bool)
  {
    item.kind == "dir" && !expanded && NoneLoaded(children) && LoadsChildren(item, loading)
  }

  /** The children after a load that was `requested` and answered with `listing` (`None`
      when the request failed or was not ok). */
  function ChildrenAfter(children: Children, requested: bool, listing: Option<seq<FileItem>>): Children
  {
    if requested && listing.Some? then ListingReply(listing.value) else children
  }

  /** `isExpanded && children.length > 0`: whether an expanded directory lists its children. */
  predicate ShowsChildren(item: FileItem, expanded: bool, children: Children)
  {
    item.kind == "dir" && expanded && Length(children).Some? && Length(children).value > 0
  }

  /** A node never lists children: before a load `length` is 0, and after an answered load
      the stored reply object has no `length`, so `children.length > 0` never holds. */
  lemma ChildrenNeverShown(item: FileItem, expanded: bool, children: Children)
    ensures !ShowsChildren(item, expanded, children)
  {
  }

  /** Once a load was answered, no later click asks for the children again, whatever the
      directory's expansion and loading state then, even when the listing was empty. */
  lemma AnsweredLoadIsFinal(item: FileItem, expanded: bool, children: Children, loading: bool,
                            listing: Option<seq<FileItem>>, laterExpanded: bool, laterLoading: bool)
    requires ClickLoads(item, expanded, children, loading) && listing.Some?
    ensures !ClickLoads(item, laterExpanded, ChildrenAfter(children, true, listing), laterLoading)
  {
  }

  /** A failed load leaves the node as it was, so collapsing and expanding it again asks
      for the children once more. */
  lemma FailedLoadRetried(item: FileItem, children: Children, listing: Option<seq<FileItem>>)
    requires ClickLoads(item, false, children, false) && listing.None?
    ensures ClickLoads(item, false, ChildrenAfter(children, true, listing), false)
  {
  }

  /** One node of the tree, with its own children and loading flag. */
  class TreeNode {
    const item: FileItem
    var children: Children
    var loading: bool

    constructor (item: FileItem)
      ensures this.item == item && children == NoChildren && !loading
    {
      this.item := item;
      children := NoChildren;
      loading := false;
    }

    /** `loadChildren`, run to completion: `listing` is the file array of the listing
        route's reply, or `None` when the request fails. The children become the reply
        only when a request was sent and answered; the loading flag is back to its old
        value afterwards. */
    method LoadChildren(listing: Option<seq<FileItem>>) returns (requested: bool)
      modifies this
      ensures requested <==> LoadsChildren(item, old(loading))
      ensures children == ChildrenAfter(old(children), requested, listing)
      ensures loading == old(loading)
    {
      if item.kind != "dir" || loading {
        return false;
      }
      loading := true;
      if listing.Some? {
        children := ListingReply(listing.value);
      }
      loading := false;
      return true;
    }

    /** `handleDirClick`: a directory's expanded state is toggled in `browser`, and its
        children are loaded when it was collapsed and none were loaded. A click on a file
        does nothing. */
    method HandleDirClick(browser: Browser, listing: Option<seq<FileItem>>) returns (requested: bool)
      modifies this, browser
      ensures requested <==> ClickLoads(item, item.path in old(browser.expandedDirs), old(children), old(loading))
      ensures browser.expandedDirs
        == (if item.kind == "dir" then ToggleDir(old(browser.expandedDirs), item.path) else old(browser.expandedDirs))
      ensures children == ChildrenAfter(old(children), requested, listing)
      ensures loading == old(loading)
    {
      requested := false;
      if item.kind == "dir" {
        var isExpanded := item.path in browser.expandedDirs;
        browser.HandleDirToggle(item.path);
        if !isExpanded && NoneLoaded(children) {
          requested := LoadChildren(listing);
        }
      }
    }
  }
}
