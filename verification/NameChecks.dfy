/** The name rules of uploads (`checkAssetName`) and of submissions (`checkFilename`). */
module NameChecks {
  import opened Paths

  const MAX_ASSET_NAME := 4096
  const MAX_FILENAME := 255

  datatype NameError =
    | Empty
    | TooLong
    | Absolute
    | ControlCharacter
    | Backslash
    | BadStart        // starts with / or -
    | NotClean
    | DotDot
    | Reserved(dir: string)

  datatype NameCheck = Ok | Bad(error: NameError)

  predicate HasControl(s: string) {
    exists i :: 0 <= i < |s| && (s[i] < ' ' || s[i] == 0x7f as char)
  }

  function CheckAssetName(name: string): NameCheck {
    if name == "" || name == "." then Bad(Empty)
    else if |name| > MAX_ASSET_NAME then Bad(TooLong)
    else if name[0] == '/' then Bad(Absolute)
    else if HasControl(name) then Bad(ControlCharacter)
    else if Clean(name) != name then Bad(NotClean)
    else if ".." in Split(name) then Bad(DotDot)
    else Ok
  }

  /** What strings.Cut(name, "/") puts first. */
  function First(name: string): string {
    if name == "" || name[0] == '/' then "" else [name[0]] + First(name[1..])
  }

  function CheckFilename(name: string): NameCheck {
    if name == "" then Bad(Empty)
    else if |name| > MAX_FILENAME then Bad(TooLong)
    else if HasControl(name) then Bad(ControlCharacter)
    else if '\\' in name then Bad(Backslash)
    else if name[0] == '/' || name[0] == '-' then Bad(BadStart)
    else if name == "." || Clean(name) != name then Bad(NotClean)
    else if ".." in Split(name) then Bad(DotDot)
    else if First(name) == ".zinc" || First(name) == "examination-assets" then Bad(Reserved(First(name)))
    else Ok
  }

  /** An asset name passes exactly when it is short, printable and every segment is a real name. */
  lemma AssetNameOkIff(name: string)
    ensures CheckAssetName(name).Ok? <==> |name| <= MAX_ASSET_NAME && !HasControl(name) && AllGood(Split(name))
  {
    NameOk(name);
  }

  lemma NameOk(name: string)
    ensures (name != "" && name != "." && name[0] != '/' && Clean(name) == name && ".." !in Split(name)) <==> AllGood(Split(name))
  {
    if AllGood(Split(name)) {
      GoodIsNotEmpty(name);
    }
    if name != "" && name[0] != '/' {
      CleanIffGood(name);
    }
  }

  lemma {:induction false} FirstIsFirst(name: string)
    ensures First(name) == Split(name)[0]
  {
    if name != "" && name[0] != '/' {
      FirstIsFirst(name[1..]);
    }
  }

  /** A filename passes exactly when, besides, it has no backslash or leading dash and its first segment is not reserved. */
  lemma FilenameOkIff(name: string)
    ensures CheckFilename(name).Ok? <==>
      && |name| <= MAX_FILENAME && !HasControl(name) && '\\' !in name && AllGood(Split(name)) && !("-" <= name)
      && Split(name)[0] != ".zinc" && Split(name)[0] != "examination-assets"
  {
    NameOk(name);
    FirstIsFirst(name);
    if AllGood(Split(name)) {
      GoodIsNotEmpty(name);
    }
  }

  /** An accepted name, joined to the staging directory or the workspace, stays under it. */
  lemma AcceptedStaysUnder(root: string, name: string)
    requires root != ""
    requires CheckAssetName(name).Ok? || CheckFilename(name).Ok?
    ensures Normal(root[0] == '/', Split(root + "/" + name)) == Normal(root[0] == '/', Split(root)) + Split(name)
    ensures Clean(root) == root && root != "/" && root != "." ==> JoinPath(root, name) == root + "/" + name
  {
    AssetNameOkIff(name);
    FilenameOkIff(name);
    GoodStaysUnder(root, name);
    if Clean(root) == root && root != "/" && root != "." {
      JoinPathIsUnder(root, name);
    }
  }
}
