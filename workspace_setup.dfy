/**
 * The workspace step of the setup wizard: the workspace path must be
 * non-blank and look absolute before the wizard goes on with it, trimmed.
 */
module WorkspaceSetup {
  import opened Wrappers
  import Text

  const EmptyError := "请输入工作空间路径"
  const RelativeError := "请输入绝对路径，例如 C:\\Users\\用户名\\openclaw 或 ~/openclaw"

  predicate IsAsciiLetter(c: char)
  {
    'A' <= c <= 'Z' || 'a' <= c <= 'z'
  }

  /** A POSIX root, a drive letter with a colon and a slash or backslash, or the home directory. */
  function IsAbsolute(p: string): (r: bool)
    ensures Text.StartsWith(p, "/") || Text.StartsWith(p, "~/") ==> r
    ensures r ==> |p| >= 1 && (p[0] == '/' || p[0] == '~' || IsAsciiLetter(p[0]))
    ensures |p| >= 1 && (p[0] == '.' || p[0] == '\\') ==> !r
  {
    Text.StartsWith(p, "/") ||
    (|p| >= 3 && IsAsciiLetter(p[0]) && p[1] == ':' && (p[2] == '\\' || p[2] == '/')) ||
    Text.StartsWith(p, "~/")
  }

  /** `handleNext`: the trimmed path, or the error for a blank or relative path. */
  function Next(workspace: string): (r: Result<string, string>)
    ensures Text.Trim(workspace) == "" ==> r == Err(EmptyError)
    ensures Text.Trim(workspace) != "" && !IsAbsolute(Text.Trim(workspace)) ==> r == Err(RelativeError)
    ensures r.Ok? <==> Text.Trim(workspace) != "" && IsAbsolute(Text.Trim(workspace))
    ensures r.Ok? ==> r.value == Text.Trim(workspace)
  {
    var trimmed := Text.Trim(workspace);
    if trimmed == "" then Err(EmptyError)
    else if !IsAbsolute(trimmed) then Err(RelativeError)
    else Ok(trimmed)
  }

  /** A trimmed string has nothing left to trim. */
  lemma TrimIdempotent(s: string)
    ensures Text.Trim(Text.Trim(s)) == Text.Trim(s)
  {
    var t := Text.Trim(s);
    assert Text.TrimStart(t) == t;
    assert Text.TrimEnd(t) == t;
  }

  /** The path the wizard goes on with is accepted again unchanged: an accepted path is a fixed point. */
  lemma AcceptedPathStable(workspace: string)
    requires Next(workspace).Ok?
    ensures Next(Next(workspace).value) == Next(workspace)
  {
    TrimIdempotent(workspace);
  }

  /** A string without space at either end is its own trim. */
  lemma TrimUntouched(s: string)
    requires |s| > 0 && !Text.IsSpace(s[0]) && !Text.IsSpace(s[|s| - 1])
    ensures Text.Trim(s) == s
  {
    assert Text.TrimStart(s) == s;
  }

  /** A drive path such as `C:\Users\User\openclaw`, without surrounding space, goes on unchanged. */
  lemma DrivePathAccepted(p: string)
    requires |p| >= 3 && IsAsciiLetter(p[0]) && p[1] == ':' && (p[2] == '\\' || p[2] == '/')
    requires !Text.IsSpace(p[|p| - 1])
    ensures Next(p) == Ok(p)
  {
    TrimUntouched(p);
  }

  /** A bare name such as `openclaw`, neither rooted, nor on a drive, nor under home, is refused as relative. */
  lemma BareNameRefused(p: string)
    requires |p| > 0 && !Text.IsSpace(p[0]) && !Text.IsSpace(p[|p| - 1])
    requires p[0] != '/' && p[0] != '~' && (|p| < 2 || p[1] != ':')
    ensures Next(p) == Err(RelativeError)
  {
    TrimUntouched(p);
  }
}
