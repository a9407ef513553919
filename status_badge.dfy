/** `StatusBadge`: the colour classes for a character's status and its capitalised label. */
module StatusBadge {
  import Text

  /** A list of class tokens: none holds a space. */
  predicate Tokens(t: seq<string>) {
    forall i :: 0 <= i < |t| ==> ' ' !in t[i]
  }

  function AliveTokens(): (t: seq<string>)
    ensures |t| >= 1 && Tokens(t) && t[0] == "bg-green-500"
  {
    ["bg-green-500", "text-white", "border-green-400/50", "shadow-green-500/50"]
  }

  function DeadTokens(): (t: seq<string>)
    ensures |t| >= 1 && Tokens(t) && t[0] == "bg-red-500"
  {
    ["bg-red-500", "text-white", "border-red-400/50", "shadow-red-500/50"]
  }

  function UnknownLightTokens(): (t: seq<string>)
    ensures |t| >= 1 && Tokens(t) && t[0] == "bg-yellow-500"
  {
    ["bg-yellow-500", "text-black", "border-yellow-400/50", "shadow-yellow-500/50"]
  }

  function UnknownDarkTokens(): (t: seq<string>)
    ensures Tokens(t)
  {
    ["dark:bg-orange-500", "dark:text-white", "dark:border-orange-400/50", "dark:shadow-orange-500/50"]
  }

  /** The unknown status carries a second colour scheme for the dark theme. */
  function UnknownTokens(): (t: seq<string>)
    ensures |t| >= 1 && Tokens(t) && t[0] == "bg-yellow-500"
  {
    var light, dark := UnknownLightTokens(), UnknownDarkTokens();
    assert forall i :: 0 <= i < |light + dark| ==> (light + dark)[i] == if i < |light| then light[i] else dark[i - |light|];
    light + dark
  }

  function DefaultTokens(): (t: seq<string>)
    ensures |t| >= 1 && Tokens(t) && t[0] == "bg-gray-500"
  {
    ["bg-gray-500", "text-white", "border-gray-400/50", "shadow-gray-500/50"]
  }

  /** The class tokens `getStatusStyles` returns, background first. */
  function StatusTokens(status: string): (t: seq<string>)
    ensures |t| >= 1 && Tokens(t)
    ensures status == "Alive" ==> t[0] == "bg-green-500"
    ensures status == "Dead" ==> t[0] == "bg-red-500"
    ensures status == "unknown" ==> t[0] == "bg-yellow-500"
    ensures status != "Alive" && status != "Dead" && status != "unknown" ==> t[0] == "bg-gray-500"
  {
    if status == "Alive" then AliveTokens()
    else if status == "Dead" then DeadTokens()
    else if status == "unknown" then UnknownTokens()
    else DefaultTokens()
  }

  /** `getStatusStyles()`: the tokens separated by single spaces; splitting on spaces gives them back. */
  function StatusStyles(status: string): (styles: string)
    ensures Text.Split(styles, ' ') == StatusTokens(status)
  {
    assert Text.NoSeparator(StatusTokens(status), ' ');
    Text.SplitJoin(StatusTokens(status), ' ');
    Text.Join(StatusTokens(status), ' ')
  }

  /**
   * The class string starts with the background class and names it as one of
   * its classes: `bg-green-500` for Alive, `bg-red-500` for Dead,
   * `bg-yellow-500` for unknown, `bg-gray-500` otherwise.
   */
  lemma StylesNameTokens(status: string)
    ensures StatusTokens(status)[0] <= StatusStyles(status)
    ensures StatusTokens(status)[0] in Text.Split(StatusStyles(status), ' ')
    ensures status == "Alive" ==> "bg-green-500" in Text.Split(StatusStyles(status), ' ')
    ensures status == "Dead" ==> "bg-red-500" in Text.Split(StatusStyles(status), ' ')
    ensures status == "unknown" ==> "bg-yellow-500" in Text.Split(StatusStyles(status), ' ')
  {
    Text.JoinStartsWith(StatusTokens(status), ' ');
  }

  /** `toUpperCase` of one character, for the ASCII letters. */
  function UpperChar(c: char): (u: char)
    ensures 'a' <= c <= 'z' ==> u as int == c as int - 32
    ensures !('a' <= c <= 'z') ==> u == c
  {
    if 'a' <= c <= 'z' then (c as int - 32) as char else c
  }

  /** `status.charAt(0).toUpperCase() + status.slice(1)`. */
  function Label(status: string): (l: string)
    ensures |l| == |status|
    ensures status != "" ==> l[0] == UpperChar(status[0]) && l[1..] == status[1..]
  {
    if status == "" then "" else [UpperChar(status[0])] + status[1..]
  }

  /** Capitalising twice is capitalising once, and the label never starts with a lower-case ASCII letter. */
  lemma LabelIdempotent(status: string)
    ensures Label(Label(status)) == Label(status)
    ensures Label(status) != "" ==> !('a' <= Label(status)[0] <= 'z')
  {
    if status != "" {
      assert Label(Label(status)) == [UpperChar(UpperChar(status[0]))] + status[1..];
    }
  }

  lemma LabelExamples()
    ensures Label("unknown") == "Unknown"
    ensures Label("Alive") == "Alive" && Label("Dead") == "Dead"
    ensures Label("") == ""
  {
    assert UpperChar('u') == 'U';
    assert "unknown"[1..] == "nknown";
    assert Label("unknown") == ['U'] + "nknown";
    assert Label("Alive") == ['A'] + "Alive"[1..];
    assert Label("Dead") == ['D'] + "Dead"[1..];
  }
}
