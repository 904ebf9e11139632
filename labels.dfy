/**
 * The small text rules the renderer applies to single fields: skill category
 * keys made readable, the award icon on grant funding, the bold award name
 * before ", Carlson School of Management", and the choice of link for a
 * project title.
 */
module Labels {

  import opened Wrappers
  import opened Strings

  // ---------------------------------------------------------------------------
  // Skill category keys: key.replace(/([A-Z])/g, " $1").replace(/^./, toUpperCase)

  predicate IsUpper(c: char)
  {
    'A' <= c <= 'Z'
  }

  predicate IsLower(c: char)
  {
    'a' <= c <= 'z'
  }

  /** A character `.` does not match in a regular expression without the s flag. */
  predicate IsLineTerminator(c: char)
  {
    c == '\n' || c == '\r' || c == '\U{2028}' || c == '\U{2029}'
  }

  /** toUpperCase on one character (ASCII letters). */
  function ToUpper(c: char): char
  {
    if IsLower(c) then (c as int - 'a' as int + 'A' as int) as char else c
  }

  function CountUpper(s: string): nat
  {
    if |s| == 0 then 0 else (if IsUpper(s[0]) then 1 else 0) + CountUpper(s[1..])
  }

  /** The first replacement: a space before every capital A to Z. */
  function SpaceCapitals(s: string): string
  {
    if |s| == 0 then ""
    else (if IsUpper(s[0]) then [' ', s[0]] else [s[0]]) + SpaceCapitals(s[1..])
  }

  /** The second replacement: the first character upper-cased, unless it is a line terminator. */
  function CapitalizeFirst(s: string): string
  {
    if |s| > 0 && !IsLineTerminator(s[0]) then [ToUpper(s[0])] + s[1..] else s
  }

  /** The category name shown for a skills key. */
  function Humanize(key: string): string
  {
    CapitalizeFirst(SpaceCapitals(key))
  }

  /** Removes the space in front of every capital that has one: the inverse of SpaceCapitals. */
  function UnspaceCapitals(s: string): string
  {
    if |s| == 0 then ""
    else if |s| >= 2 && s[0] == ' ' && IsUpper(s[1]) then [s[1]] + UnspaceCapitals(s[2..])
    else [s[0]] + UnspaceCapitals(s[1..])
  }

  /** Exactly one space is inserted per capital. */
  lemma {:induction false} SpaceCapitalsLength(s: string)
    ensures |SpaceCapitals(s)| == |s| + CountUpper(s)
  {
    if |s| > 0 {
      SpaceCapitalsLength(s[1..]);
    }
  }

  /** Removing the inserted spaces gives the key back, so nothing else changes. */
  lemma {:induction false} UnspaceSpaceCapitals(s: string)
    ensures UnspaceCapitals(SpaceCapitals(s)) == s
  {
    if |s| > 0 {
      UnspaceSpaceCapitals(s[1..]);
      var rest := SpaceCapitals(s[1..]);
      if IsUpper(s[0]) {
        assert SpaceCapitals(s) == [' ', s[0]] + rest;
        assert (SpaceCapitals(s))[2..] == rest;
      } else {
        assert SpaceCapitals(s) == [s[0]] + rest;
        assert (SpaceCapitals(s))[1..] == rest;
      }
      assert s == [s[0]] + s[1..];
    }
  }

  /** Every capital after the first position in the spaced key follows a space. */
  lemma {:induction false} SpaceCapitalsPrecede(s: string)
    ensures var r := SpaceCapitals(s);
      forall i :: 0 < i < |r| && IsUpper(r[i]) ==> r[i - 1] == ' '
    ensures |s| > 0 ==> SpaceCapitals(s)[0] == (if IsUpper(s[0]) then ' ' else s[0])
  {
    if |s| > 0 {
      SpaceCapitalsPrecede(s[1..]);
      var head: string := if IsUpper(s[0]) then [' ', s[0]] else [s[0]];
      var rest := SpaceCapitals(s[1..]);
      var r := head + rest;
      forall i | 0 < i < |r| && IsUpper(r[i]) ensures r[i - 1] == ' ' {
        if i >= |head| + 1 {
          assert r[i] == rest[i - |head|] && r[i - 1] == rest[i - |head| - 1];
        }
      }
    }
  }

  /** humanisation: its length is the key's plus one per capital; a space
      precedes every capital but the first character; a key starting with a
      capital gains a leading space; a key starting with a lower-case letter
      has it upper-cased, and one starting with any other character keeps
      it; and removing the spaces before capitals from all but
      the first character restores the key's tail. */
  lemma {:induction false} HumanizeShape(key: string)
    ensures var h := Humanize(key);
      && |h| == |key| + CountUpper(key)
      && (forall i :: 0 < i < |h| && IsUpper(h[i]) ==> h[i - 1] == ' ')
      && (|key| > 0 && IsUpper(key[0]) ==> h[0] == ' ' && h[1] == key[0])
      && (|key| > 0 && IsLower(key[0]) ==> h[0] == ToUpper(key[0]) && IsUpper(h[0]))
      && (|key| > 0 && !IsUpper(key[0]) && !IsLower(key[0]) ==> h[0] == key[0])
      && (|key| > 0 ==> UnspaceCapitals(SpaceCapitals(key)) == key && h[1..] == SpaceCapitals(key)[1..])
  {
    var r := SpaceCapitals(key);
    SpaceCapitalsLength(key);
    SpaceCapitalsPrecede(key);
    UnspaceSpaceCapitals(key);
    if |key| > 0 && IsUpper(key[0]) {
      assert r == [' ', key[0]] + SpaceCapitals(key[1..]);
    }
  }

  lemma HumanizeExamples()
    ensures Humanize("aB") == "A B"
    ensures Humanize("M") == " M"
    ensures Humanize("") == ""
  {
    assert SpaceCapitals("aB") == "a B" by {
      assert "aB"[1..] == "B";
      assert SpaceCapitals("B") == " B";
    }
    assert SpaceCapitals("M") == " M";
  }

  // ---------------------------------------------------------------------------
  // Funding line of a working paper

  const AwardIcon := "<img src=\"award.svg\" class=\"award-icon\" alt=\"Award icon\">"

  /** The three substrings the source tests for. */
  predicate IsGrantFunding(funding: string)
  {
    Contains(funding, "Grant") || Contains(funding, "Foundation") || Contains(funding, "Dean's Small Grant")
  }

  /** The funding part of a paper's markup: nothing when the funding is absent
      or empty, otherwise a line break, the award icon when it is grant
      funding, and the funding text. */
  function FundingHtml(funding: Option<string>): string
  {
    if !Truthy(funding) then ""
    else if IsGrantFunding(funding.value) then "<br>" + AwardIcon + " " + funding.value
    else "<br>" + funding.value
  }

  /** The third test is subsumed by the first: "Dean's Small Grant" contains "Grant". */
  lemma GrantFundingIff(funding: string)
    ensures IsGrantFunding(funding) <==> Contains(funding, "Grant") || Contains(funding, "Foundation")
  {
    if Contains(funding, "Dean's Small Grant") {
      assert OccursAt("Dean's Small Grant", "Grant", 13);
      ContainsTransitive(funding, "Dean's Small Grant", "Grant");
    }
  }

  /** Non-empty funding gets the icon exactly when it mentions "Grant" or
      "Foundation", and is shown verbatim after a line break either way. */
  lemma FundingIcon(funding: string)
    requires funding != ""
    ensures var html := FundingHtml(Some(funding));
      && (html == "<br>" + AwardIcon + " " + funding <==> Contains(funding, "Grant") || Contains(funding, "Foundation"))
      && (html == "<br>" + funding <==> !(Contains(funding, "Grant") || Contains(funding, "Foundation")))
  {
    GrantFundingIff(funding);
    var html := FundingHtml(Some(funding));
    if IsGrantFunding(funding) {
      assert |html| != |"<br>" + funding|;
    } else {
      assert |html| != |"<br>" + AwardIcon + " " + funding|;
    }
  }

  lemma FundingExamples()
    ensures FundingHtml(Some("NSF Grant #123")) == "<br>" + AwardIcon + " NSF Grant #123"
    ensures FundingHtml(None) == "" && FundingHtml(Some("")) == ""
  {
    assert OccursAt("NSF Grant #123", "Grant", 4);
  }

  // ---------------------------------------------------------------------------
  // Award names of the Carlson School of Management

  const CarlsonSuffix := ", Carlson School of Management"

  /** The award markup: the text before the first ", Carlson School of
      Management" in bold followed by that suffix, or the whole award in bold. */
  function AwardText(award: string): string
  {
    var at := IndexOf(award, CarlsonSuffix);
    if at.Some? then "<strong>" + award[..at.value] + "</strong>" + CarlsonSuffix
    else "<strong>" + award + "</strong>"
  }

  /** An occurrence in a prefix is an occurrence in the whole. */
  lemma OccursInPrefix(s: string, sub: string, n: nat, j: nat)
    requires n <= |s| && OccursAt(s[..n], sub, j)
    ensures OccursAt(s, sub, j)
  {
    assert s[j..j + |sub|] == s[..n][j..j + |sub|];
  }

  /** An award naming the school bolds exactly the part before the first
      mention, which does not itself mention the school and which followed by
      the suffix starts the award; anything after that first mention is not
      shown. An award without it is bolded whole. */
  lemma AwardTextSplit(award: string)
    ensures Contains(award, CarlsonSuffix) ==>
      exists before: string ::
        && AwardText(award) == "<strong>" + before + "</strong>" + CarlsonSuffix
        && !Contains(before, CarlsonSuffix)
        && before + CarlsonSuffix == award[..|before| + |CarlsonSuffix|]
    ensures !Contains(award, CarlsonSuffix) ==> AwardText(award) == "<strong>" + award + "</strong>"
  {
    var at := IndexOf(award, CarlsonSuffix);
    if at.Some? {
      var before := award[..at.value];
      BeforeFirstMention(award, at.value);
      assert AwardText(award) == "<strong>" + before + "</strong>" + CarlsonSuffix;
    }
  }

  /** The text before the first mention of the school does not mention it,
      and the mention follows it. */
  lemma BeforeFirstMention(award: string, i: nat)
    requires IndexOf(award, CarlsonSuffix) == Some(i)
    ensures !Contains(award[..i], CarlsonSuffix)
    ensures award[..i] + CarlsonSuffix == award[..i + |CarlsonSuffix|]
  {
    var before := award[..i];
    if Contains(before, CarlsonSuffix) {
      var j: nat :| j <= |before| && OccursAt(before, CarlsonSuffix, j);
      OccursInPrefix(award, CarlsonSuffix, i, j);
      assert false;
    }
    assert award[..i + |CarlsonSuffix|] == award[..i] + award[i..i + |CarlsonSuffix|];
  }

  // ---------------------------------------------------------------------------
  // Project titles

  /** What the title of an industry project links to. */
  datatype TitleLink = PopoverTrigger | External(url: string) | NoLink

  const PopoverProject := "TechMemory"
  const PendingLink := "To be launched soon"

  /** TechMemory opens the QR-code popover; any other project with a link
      that is present, non-empty and not the placeholder links out; the rest
      have no link. */
  function ChooseTitleLink(title: string, link: Option<string>): TitleLink
  {
    if title == PopoverProject then PopoverTrigger
    else if Truthy(link) && link.value != PendingLink then External(link.value)
    else NoLink
  }

  /** The title markup for a link choice. */
  function TitleHtml(title: string, choice: TitleLink): string
  {
    match choice
    case PopoverTrigger => "<a href=\"#\" class=\"techmemory-link\" id=\"techmemory-link\">" + title + "</a>"
    case External(url) => "<a href=\"" + url + "\" target=\"_blank\">" + title + "</a>"
    case NoLink => title
  }

  /** text.replace(/\n/g, '<br>'). */
  function NewlinesToBr(s: string): string
  {
    if |s| == 0 then ""
    else (if s[0] == '\n' then "<br>" else [s[0]]) + NewlinesToBr(s[1..])
  }

  function CountChar(s: string, c: char): nat
  {
    if |s| == 0 then 0 else (if s[0] == c then 1 else 0) + CountChar(s[1..], c)
  }

  /** No newline survives, each becomes the four characters of `<br>`, and a
      text without newlines is unchanged. */
  lemma {:induction false} NewlinesToBrShape(s: string)
    ensures '\n' !in NewlinesToBr(s)
    ensures |NewlinesToBr(s)| == |s| + 3 * CountChar(s, '\n')
    ensures '\n' !in s ==> NewlinesToBr(s) == s
  {
    if |s| > 0 {
      NewlinesToBrShape(s[1..]);
      assert s == [s[0]] + s[1..];
    }
  }

  /** The bullet character that starts papers, companies and projects (the
      source text holds its UTF-8 bytes decoded once more as Windows-1252;
      the intended character is modelled). */
  const Bullet := "\U{2022}"

  /** The markup of one industry project. */
  function ProjectHtml(title: string, role: string, description: string, link: Option<string>): string
  {
    NewlinesToBr(Bullet + " <strong>" + TitleHtml(title, ChooseTitleLink(title, link)) + "</strong> "
      + role + "<br>" + description)
  }

  /** The element id the popover's trigger link carries. */
  const TriggerId := "id=\"techmemory-link\""

  /** The TechMemory project, whatever its link, carries the element id the
      popover looks up; the placeholder link, an empty link and a missing link
      all give a plain title. */
  lemma ProjectTitleChoice(title: string, role: string, description: string, link: Option<string>)
    ensures title == PopoverProject ==> Contains(ProjectHtml(title, role, description, link), TriggerId)
    ensures title != PopoverProject && '=' !in title + role + description && (link.Some? ==> '=' !in link.value) ==>
      !Contains(ProjectHtml(title, role, description, link), TriggerId)
    ensures title != PopoverProject && Truthy(link) && link.value != PendingLink && '\n' !in link.value + title ==>
      Contains(ProjectHtml(title, role, description, link), "<a href=\"" + link.value + "\" target=\"_blank\">" + title + "</a>")
    ensures title != PopoverProject && (link.None? || link.value in {"", PendingLink}) ==>
      ChooseTitleLink(title, link) == NoLink
    ensures title != PopoverProject && Truthy(link) && link.value != PendingLink ==>
      ChooseTitleLink(title, link) == External(link.value)
  {
    if title == PopoverProject {
      TriggerInProject(title, role, description);
    } else {
      if '=' !in title + role + description && (link.Some? ==> '=' !in link.value) {
        NoTriggerInProject(title, role, description, link);
      }
      if Truthy(link) && link.value != PendingLink && '\n' !in link.value + title {
        AnchorInProject(title, role, description, link.value);
      }
    }
  }

  /** No `d` directly followed by `=`: the only way `id=` could occur. */
  predicate NoIdAssign(s: string)
  {
    forall k :: 0 < k < |s| ==> !(s[k - 1] == 'd' && s[k] == '=')
  }

  /** A string without `d`, or without `=`, has no `d=`. */
  lemma NoIdAssignFree(s: string)
    requires 'd' !in s || '=' !in s
    ensures NoIdAssign(s)
  {
    forall k | 0 < k < |s| ensures !(s[k - 1] == 'd' && s[k] == '=') {
      assert s[k - 1] in s && s[k] in s;
    }
  }

  /** Concatenation keeps the absence of `d=` unless it creates one at the seam. */
  lemma NoIdAssignConcat(a: string, b: string)
    requires NoIdAssign(a) && NoIdAssign(b)
    requires |a| == 0 || |b| == 0 || a[|a| - 1] != 'd' || b[0] != '='
    ensures NoIdAssign(a + b)
  {
    var ab := a + b;
    forall k | 0 < k < |ab| ensures !(ab[k - 1] == 'd' && ab[k] == '=') {
      if k < |a| {
        assert ab[k - 1] == a[k - 1] && ab[k] == a[k];
      } else if k == |a| {
        assert ab[k - 1] == a[|a| - 1] && ab[k] == b[0];
      } else {
        assert ab[k - 1] == b[k - 1 - |a|] && ab[k] == b[k - |a|];
      }
    }
  }

  /** The newline replacement creates no `d=`, and keeps the first character
      unless it is a newline. */
  lemma {:induction false} NoIdAssignNewlines(s: string)
    requires NoIdAssign(s)
    ensures NoIdAssign(NewlinesToBr(s))
    ensures |s| > 0 ==> |NewlinesToBr(s)| > 0 && NewlinesToBr(s)[0] == (if s[0] == '\n' then '<' else s[0])
  {
    if |s| > 0 {
      var tail := s[1..];
      forall k | 0 < k < |tail| ensures !(tail[k - 1] == 'd' && tail[k] == '=') {
        assert tail[k - 1] == s[k] && tail[k] == s[k + 1];
      }
      NoIdAssignNewlines(tail);
      var head: string := if s[0] == '\n' then "<br>" else [s[0]];
      NoIdAssignFree(head);
      assert NewlinesToBr(s) == head + NewlinesToBr(tail);
      NoIdAssignConcat(head, NewlinesToBr(tail));
    }
  }

  /** Without `d=` there is no `id="techmemory-link"`. */
  lemma NoTriggerWithout(s: string)
    requires NoIdAssign(s)
    ensures !Contains(s, TriggerId)
  {
    forall i: nat | i <= |s| ensures !OccursAt(s, TriggerId, i) {
      if i + |TriggerId| <= |s| {
        assert s[i..i + |TriggerId|][1] == s[i + 1] && s[i..i + |TriggerId|][2] == s[i + 2];
      }
    }
  }

  /** The title markup of a project other than TechMemory, with no `=` in its
      title or link, has no `d=`. */
  lemma NoIdAssignTitle(title: string, link: Option<string>)
    requires title != PopoverProject && '=' !in title && (link.Some? ==> '=' !in link.value)
    ensures NoIdAssign(TitleHtml(title, ChooseTitleLink(title, link)))
  {
    NoIdAssignFree(title);
    if ChooseTitleLink(title, link).External? {
      var url := link.value;
      var open := "<a href=\"";
      var mid := "\" target=\"_blank\">";
      NoIdAssignFree(open);
      NoIdAssignFree(url);
      NoIdAssignFree(mid);
      NoIdAssignFree("</a>");
      NoIdAssignConcat(open, url);
      NoIdAssignConcat(open + url, mid);
      NoIdAssignConcat(open + url + mid, title);
      NoIdAssignConcat(open + url + mid + title, "</a>");
    }
  }

  /** Only TechMemory's markup carries the trigger id, as long as the other
      project's fields contain no `=` (a field ending in `id="techmemory-link`
      followed by the template's quote would spell it out). */
  lemma NoTriggerInProject(title: string, role: string, description: string, link: Option<string>)
    requires title != PopoverProject && '=' !in title + role + description && (link.Some? ==> '=' !in link.value)
    ensures !Contains(ProjectHtml(title, role, description, link), TriggerId)
  {
    assert title <= title + role + description;
    assert forall c :: c in role ==> c in title + role + description;
    assert forall c :: c in description ==> c in title + role + description;
    var th := TitleHtml(title, ChooseTitleLink(title, link));
    NoIdAssignTitle(title, link);
    var pre := Bullet + " <strong>";
    NoIdAssignFree(pre);
    NoIdAssignFree("</strong> ");
    NoIdAssignFree(role);
    NoIdAssignFree("<br>");
    NoIdAssignFree(description);
    NoIdAssignConcat(pre, th);
    NoIdAssignConcat(pre + th, "</strong> ");
    NoIdAssignConcat(pre + th + "</strong> ", role);
    NoIdAssignConcat(pre + th + "</strong> " + role, "<br>");
    NoIdAssignConcat(pre + th + "</strong> " + role + "<br>", description);
    var text := pre + th + "</strong> " + role + "<br>" + description;
    NoIdAssignNewlines(text);
    NoTriggerWithout(NewlinesToBr(text));
  }

  /** A character in neither of two strings is not in their concatenation. */
  lemma NotInConcat(c: char, a: string, b: string)
    requires c !in a && c !in b
    ensures c !in a + b
  {
  }

  /** An external anchor around a newline-free link and title has no newline. */
  lemma NewlineFreeAnchor(url: string, title: string)
    requires '\n' !in url + title
    ensures '\n' !in "<a href=\"" + url + "\" target=\"_blank\">" + title + "</a>"
  {
    assert url == (url + title)[..|url|] && title == (url + title)[|url|..];
    NotInConcat('\n', "<a href=\"", url);
    NotInConcat('\n', "<a href=\"" + url, "\" target=\"_blank\">");
    NotInConcat('\n', "<a href=\"" + url + "\" target=\"_blank\">", title);
    NotInConcat('\n', "<a href=\"" + url + "\" target=\"_blank\">" + title, "</a>");
  }

  /** A project that links out carries the anchor to its link around its
      title, when neither contains a newline. */
  lemma AnchorInProject(title: string, role: string, description: string, url: string)
    requires title != PopoverProject && url != "" && url != PendingLink && '\n' !in url + title
    ensures Contains(ProjectHtml(title, role, description, Some(url)),
      "<a href=\"" + url + "\" target=\"_blank\">" + title + "</a>")
  {
    var anchor := "<a href=\"" + url + "\" target=\"_blank\">" + title + "</a>";
    assert TitleHtml(title, ChooseTitleLink(title, Some(url))) == anchor;
    var pre := Bullet + " <strong>";
    var post := "</strong> " + role + "<br>" + description;
    var text := pre + anchor + post;
    assert Bullet + " <strong>" + anchor + "</strong> " + role + "<br>" + description == text;
    NewlineFreeAnchor(url, title);
    OccursBetween(pre, anchor, post);
    NewlinesToBrKeeps(text, anchor, |pre|);
  }

  lemma TriggerMarkup(title: string)
    ensures TitleHtml(title, PopoverTrigger) == "<a href=\"#\" class=\"techmemory-link\" " + TriggerId + ">" + title + "</a>"
  {
  }

  /** The trigger's id sits in the project's markup before any newline is replaced. */
  lemma TriggerInProject(title: string, role: string, description: string)
    ensures Contains(NewlinesToBr(Bullet + " <strong>" + TitleHtml(title, PopoverTrigger) + "</strong> " + role + "<br>" + description), TriggerId)
  {
    var pre := Bullet + " <strong>" + "<a href=\"#\" class=\"techmemory-link\" ";
    var post := ">" + title + "</a></strong> " + role + "<br>" + description;
    var text := Bullet + " <strong>" + TitleHtml(title, PopoverTrigger) + "</strong> " + role + "<br>" + description;
    TriggerMarkup(title);
    assert text == pre + TriggerId + post;
    OccursBetween(pre, TriggerId, post);
    NewlinesToBrKeeps(text, TriggerId, |pre|);
  }

  /** A string occurs in the middle of a concatenation with it. */
  lemma OccursBetween(pre: string, sub: string, post: string)
    ensures OccursAt(pre + sub + post, sub, |pre|)
  {
    assert (pre + sub + post)[|pre|..|pre| + |sub|] == sub;
  }

  /** A newline-free occurrence survives the newline replacement. */
  lemma {:induction false} NewlinesToBrKeeps(s: string, sub: string, i: nat)
    requires OccursAt(s, sub, i) && '\n' !in sub
    ensures Contains(NewlinesToBr(s), sub)
  {
    NewlinesToBrSplit(s[..i], s[i..]);
    NewlinesToBrSplit(sub, s[i + |sub|..]);
    NewlinesToBrShape(sub);
    assert s[i..] == sub + s[i + |sub|..];
    assert s == s[..i] + s[i..];
    var r := NewlinesToBr(s);
    var p := NewlinesToBr(s[..i]);
    assert r == p + sub + NewlinesToBr(s[i + |sub|..]);
    assert r[|p|..|p| + |sub|] == sub;
    assert OccursAt(r, sub, |p|);
  }

  /** The newline replacement distributes over concatenation. */
  lemma {:induction false} NewlinesToBrSplit(a: string, b: string)
    ensures NewlinesToBr(a + b) == NewlinesToBr(a) + NewlinesToBr(b)
  {
    if |a| > 0 {
      NewlinesToBrSplit(a[1..], b);
      assert (a + b)[1..] == a[1..] + b;
      assert (a + b)[0] == a[0];
    } else {
      assert a + b == b;
    }
  }
}
