/**
 * populateDetailsPage: projects the profile document into the page's
 * containers. Every list container is a sequence of `<li>` inner-HTML strings
 * that rendering only ever appends to; the services block is a single string
 * that rendering assigns.
 */
module Render {

  import opened Wrappers
  import opened Strings
  import Terms
  import Labels

  datatype Education = Education(year: string, degree: string, field: string, institution: string)
  datatype Honor = Honor(year: string, award: string, amount: Option<string>, description: Option<string>)
  datatype Paper = Paper(title: string, status: Option<string>, link: Option<string>, authors: seq<string>,
                         funding: Option<string>, presentations: Option<seq<string>>)
  datatype Talk = Talk(year: string, authors: string, title: string, event: string, location: string)
  datatype Course = Course(course: string, level: string, terms: Option<seq<string>>, notes: Option<seq<string>>)
  datatype Lecture = Lecture(term: string, topic: string, audience: string, pdf: Option<string>)
  /** One referee or service line: the journal, conference or role, and the period. */
  datatype ServiceEntry = ServiceEntry(name: string, period: string)
  datatype Service = Service(journalReferee: Option<seq<ServiceEntry>>, conferenceReferee: Option<seq<ServiceEntry>>,
                             other: Option<seq<ServiceEntry>>)
  datatype Experience = Experience(year: string, role: string, company: string, location: string, workFor: Option<string>)
  datatype Company = Company(company: string, link: string, domain: string)
  datatype Collaboration = Collaboration(introduction: Option<string>, companies: Option<seq<Company>>)
  datatype Project = Project(title: string, role: string, description: string, link: Option<string>)
  datatype Projects = Projects(introduction: Option<string>, projects: Option<seq<Project>>)
  /** A skills entry, in the order Object.keys lists the categories. */
  datatype Skill = Skill(category: string, description: string)
  datatype Contact = Contact(email: Option<string>, linkedin: Option<string>, twitter: Option<string>, github: Option<string>)

  /** The profile document. Optional fields the renderer tests are `Option`s. */
  datatype Profile = Profile(
    name: string,
    aboutMe: string,
    education: seq<Education>,
    topics: string,
    methodologies: string,
    honors: seq<Honor>,
    workingPapers: seq<Paper>,
    talks: Option<seq<Talk>>,
    instructor: Option<seq<Course>>,
    guestLectures: Option<seq<Lecture>>,
    service: Option<Service>,
    professionalExperience: Option<seq<Experience>>,
    industryCollaboration: Option<Collaboration>,
    industryProjects: Option<Projects>,
    skills: Option<seq<Skill>>,
    contact: Option<Contact>)

  /** `xs && xs.length > 0`. */
  predicate NonEmpty<T>(xs: Option<seq<T>>)
  {
    xs.Some? && |xs.value| > 0
  }

  /** Every course whose terms get sorted has sortable terms (see Terms.Sortable). */
  predicate Renderable(data: Profile)
  {
    data.instructor.Some? ==>
      forall k :: 0 <= k < |data.instructor.value| ==> CourseSortable(data.instructor.value[k])
  }

  predicate CourseSortable(c: Course)
  {
    c.terms.Some? && |c.terms.value| >= 2 ==> Terms.SortableList(c.terms.value)
  }

  /** Applies `f` to every element, keeping the order. */
  function MapSeq<T>(s: seq<T>, f: T -> string): (r: seq<string>)
    ensures |r| == |s|
  {
    seq(|s|, k requires 0 <= k < |s| => f(s[k]))
  }

  lemma MapSeqSnoc<T>(s: seq<T>, i: nat, f: T -> string)
    requires i < |s|
    ensures MapSeq(s[..i + 1], f) == MapSeq(s[..i], f) + [f(s[i])]
  {
    var a := MapSeq(s[..i + 1], f);
    var b := MapSeq(s[..i], f) + [f(s[i])];
    forall k | 0 <= k <= i ensures a[k] == b[k] {
      assert s[..i + 1][k] == s[k];
    }
  }

  /** `items.forEach(x => container.appendChild(f(x)))`: the container gains
      one rendered item per element, in order, after what it already held. */
  method AppendEach<T>(list: seq<string>, items: seq<T>, f: T -> string) returns (r: seq<string>)
    ensures r == list + MapSeq(items, f)
  {
    r := list;
    var i := 0;
    while i < |items|
      invariant 0 <= i <= |items|
      invariant r == list + MapSeq(items[..i], f)
    {
      MapSeqSnoc(items, i, f);
      r := r + [f(items[i])];
      i := i + 1;
    }
    assert items[..|items|] == items;
  }

  // Template indentation inside the multi-line list-item literals.
  const I6 := "      "
  const I8 := "        "
  const I10 := "          "
  const I12 := "            "

  const ProfileTitle :=
    "Ph.D. candidate @UMN, CSOM <span class=\"job-market-separator\">|</span> <span class=\"job-market-text\">On the Job Market</span>"

  /** `cond ? text : ""` on an optional string. */
  function IfTruthy(o: Option<string>, before: string): string
  {
    if Truthy(o) then before + o.value else ""
  }

  // ---- Education and research -------------------------------------------

  function EducationItem(e: Education): string
  {
    "<span class=\"year\">" + e.year + "</span><span class=\"details\"><strong>" + e.degree + "</strong> in "
      + e.field + "<br>" + e.institution + "</span>"
  }

  function ResearchItems(topics: string, methodologies: string): seq<string>
  {
    [ "<span class=\"category\">Topics</span><span class=\"content\">" + topics + "</span>",
      "<span class=\"category\">Methodologies</span><span class=\"content\">" + methodologies + "</span>" ]
  }

  // ---- Honors ---------------------------------------------------------

  function HonorItem(h: Honor): string
  {
    "\n" + I8 + "<span class=\"year\">" + h.year + "</span>\n"
      + I8 + "<span class=\"details\">\n"
      + I10 + Labels.AwardText(h.award) + IfTruthy(h.amount, " ") + "\n"
      + I10 + IfTruthy(h.description, "<br>") + "\n"
      + I8 + "</span>\n" + I6
  }

  // ---- Working papers ---------------------------------------------------

  /** One working paper: its bullet, title, status, link, authors, funding
      acknowledgement and presentations. */
  function PaperItem(p: Paper): string
  {
    Labels.Bullet + " <strong>" + p.title + "</strong>"
      + IfTruthy(p.status, " <em>") + (if Truthy(p.status) then "</em>" else "")
      + (if Truthy(p.link) then "&nbsp;&nbsp;&nbsp;<a href=\"" + p.link.value + "\" target=\"_blank\">Read More</a>" else "")
      + "<br><em>" + Join(p.authors, ", ") + "</em>"
      + Labels.FundingHtml(p.funding)
      + (if NonEmpty(p.presentations) then "<br>" + Join(p.presentations.value, ", ") else "")
  }

  // ---- Talks, teaching and guest lectures -------------------------------

  function Category(name: string): string
  {
    CategoryOpen + name + "</div>"
  }

  const CategoryOpen := "<div class=\"teaching-category\">"
  const CourseOpen := "<div class=\"teaching-course\">"

  const Conferences := "CONFERENCES"
  const Instructor := "INSTRUCTOR"
  const GuestLectures := "GUEST LECTURES"

  function TalkItem(t: Talk): string
  {
    "\n" + I10 + "<span class=\"year\">" + t.year + "</span>\n"
      + I10 + "<span class=\"details\">\n"
      + I12 + "<em>" + t.authors + "</em> <strong>" + t.title + "</strong><br>\n"
      + I12 + t.event + ", " + t.location + "\n"
      + I10 + "</span>\n" + I8
  }

  function NoteHtml(note: string): string
  {
    "<br><span class=\"course-note\">" + note + "</span>"
  }

  function NotesHtml(notes: seq<string>): string
  {
    if |notes| == 0 then "" else NotesHtml(notes[..|notes| - 1]) + NoteHtml(notes[|notes| - 1])
  }

  /** The course markup up to its notes, given the formatted terms. */
  function CourseHead(c: Course, formattedTerms: string): string
  {
    CourseOpen + "\n"
      + I10 + "<div class=\"course-terms\">" + formattedTerms + "</div>\n"
      + I10 + "<div class=\"course-details\">\n"
      + I12 + "<strong>" + c.course + "</strong> (" + c.level + ")"
  }

  function CourseWith(c: Course, formattedTerms: string): string
  {
    CourseHead(c, formattedTerms) + (if NonEmpty(c.notes) then NotesHtml(c.notes.value) else "") + "</div></div>"
  }

  function CourseItem(c: Course): string
    requires CourseSortable(c)
  {
    CourseWith(c, Terms.FormatTerms(c.terms))
  }

  function CourseItems(cs: seq<Course>): (r: seq<string>)
    requires forall k :: 0 <= k < |cs| ==> CourseSortable(cs[k])
    ensures |r| == |cs|
  {
    seq(|cs|, k requires 0 <= k < |cs| && CourseSortable(cs[k]) => CourseItem(cs[k]))
  }

  lemma CourseItemsSnoc(cs: seq<Course>, i: nat)
    requires forall k :: 0 <= k < |cs| ==> CourseSortable(cs[k])
    requires i < |cs|
    ensures CourseItems(cs[..i + 1]) == CourseItems(cs[..i]) + [CourseItem(cs[i])]
  {
    var a := CourseItems(cs[..i + 1]);
    var b := CourseItems(cs[..i]) + [CourseItem(cs[i])];
    forall k | 0 <= k <= i ensures a[k] == b[k] {
      assert cs[..i + 1][k] == cs[k];
    }
  }

  /** The PDF link, when there is one, around the lecture topic. */
  function TopicHtml(l: Lecture): string
  {
    if Truthy(l.pdf) then
      "<a href=\"" + l.pdf.value
        + "\" target=\"_blank\" style=\"color: inherit; text-decoration: underline; text-underline-offset: 0.3rem;\">"
        + l.topic + "</a>"
    else l.topic
  }

  /** One guest lecture, given its formatted term. */
  function LectureWith(l: Lecture, formattedTerm: string): string
  {
    "\n" + I10 + "<span class=\"year\">" + formattedTerm + "</span>\n"
      + I10 + "<span class=\"details\">\n"
      + I12 + "<strong>" + TopicHtml(l) + "</strong><br>Audience: " + l.audience + "\n"
      + I10 + "</span>\n" + I8
  }

  /** A guest lecture's term is formatted on its own, as a one-term list
      (see LectureTerm). */
  function LectureItem(l: Lecture): string
  {
    LectureWith(l, Terms.FormatSingle(l.term))
  }

  /** Formatting the one-term list `[term]` is formatting the single term. */
  lemma LectureTerm(term: string)
    ensures Terms.FormatTerms(Some([term])) == Terms.FormatSingle(term)
  {
  }

  function TalkSection(talks: Option<seq<Talk>>): seq<string>
  {
    if NonEmpty(talks) then [Category(Conferences)] + MapSeq(talks.value, TalkItem) else []
  }

  function InstructorSection(data: Profile): seq<string>
    requires Renderable(data)
  {
    if NonEmpty(data.instructor) then [Category(Instructor)] + CourseItems(data.instructor.value) else []
  }

  function LectureSection(lectures: Option<seq<Lecture>>): seq<string>
  {
    if NonEmpty(lectures) then [Category(GuestLectures)] + MapSeq(lectures.value, LectureItem) else []
  }

  /** Appending three pieces one after another appends their concatenation. */
  lemma AppendThree(list: seq<string>, a: seq<string>, b: seq<string>, c: seq<string>)
    ensures list + a + b + c == list + (a + b + c)
  {
  }

  /** Everything the talks list receives: conferences, instructor roles and
      guest lectures, each under its heading. */
  function TalksItems(data: Profile): seq<string>
    requires Renderable(data)
  {
    TalkSection(data.talks) + InstructorSection(data) + LectureSection(data.guestLectures)
  }

  /** Course and lecture markup can never be mistaken for a heading:
      a course opens a `teaching-course` block, and a talk or lecture item
      starts with a newline. */
  lemma ItemShapes(c: Course, l: Lecture, t: Talk, formatted: string)
    ensures CourseOpen <= CourseWith(c, formatted)
    ensures "\n" <= LectureWith(l, formatted)
    ensures "\n" <= TalkItem(t)
  {
  }

  /** Every heading opens a `teaching-category` block (so it does not start
      with a newline), and the three
      headings differ from each other. */
  lemma HeadingShapes()
    ensures forall name :: CategoryOpen <= Category(name) && !("\n" <= Category(name))
    ensures Category(Conferences) != Category(Instructor)
    ensures Category(Conferences) != Category(GuestLectures)
    ensures Category(Instructor) != Category(GuestLectures)
  {
    assert Category(Conferences)[31] == 'C' && Category(Instructor)[31] == 'I' && Category(GuestLectures)[31] == 'G';
    forall name ensures CategoryOpen <= Category(name) && !("\n" <= Category(name)) {
      assert Category(name)[0] == CategoryOpen[0] == '<';
    }
  }

  /** No string opens both a `teaching-course` and a `teaching-category` block. */
  lemma OpenersClash(x: string)
    ensures !(CourseOpen <= x && CategoryOpen <= x)
  {
    assert CourseOpen[22] == 'o' && CategoryOpen[22] == 'a';
  }

  /** A string without the prefix every image of `f` has is none of the
      mapped items. */
  lemma NotInMapSeq<T>(s: seq<T>, f: T -> string, x: string, prefix: string)
    requires forall y :: prefix <= f(y)
    requires !(prefix <= x)
    ensures x !in MapSeq(s, f)
  {
  }

  lemma {:induction false} TalkSectionHeadings(talks: Option<seq<Talk>>)
    ensures Category(Instructor) !in TalkSection(talks) && Category(GuestLectures) !in TalkSection(talks)
  {
    HeadingShapes();
    if NonEmpty(talks) {
      forall t ensures "\n" <= TalkItem(t) {
        ItemShapes(Course("", "", None, None), Lecture("", "", "", None), t, "");
      }
      NotInMapSeq(talks.value, TalkItem, Category(Instructor), "\n");
      NotInMapSeq(talks.value, TalkItem, Category(GuestLectures), "\n");
    }
  }

  lemma {:induction false} InstructorSectionHeadings(data: Profile)
    requires Renderable(data)
    ensures Category(Conferences) !in InstructorSection(data) && Category(GuestLectures) !in InstructorSection(data)
  {
    HeadingShapes();
    if NonEmpty(data.instructor) {
      var cs := data.instructor.value;
      var items := CourseItems(cs);
      forall k | 0 <= k < |items|
        ensures items[k] != Category(Conferences) && items[k] != Category(GuestLectures)
      {
        ItemShapes(cs[k], Lecture("", "", "", None), Talk("", "", "", "", ""), Terms.FormatTerms(cs[k].terms));
        OpenersClash(items[k]);
      }
    }
  }

  lemma {:induction false} LectureSectionHeadings(lectures: Option<seq<Lecture>>)
    ensures Category(Conferences) !in LectureSection(lectures) && Category(Instructor) !in LectureSection(lectures)
  {
    HeadingShapes();
    if NonEmpty(lectures) {
      forall l ensures "\n" <= LectureItem(l) {
        ItemShapes(Course("", "", None, None), l, Talk("", "", "", "", ""), Terms.FormatSingle(l.term));
      }
      NotInMapSeq(lectures.value, LectureItem, Category(Conferences), "\n");
      NotInMapSeq(lectures.value, LectureItem, Category(Instructor), "\n");
    }
  }

  /** Each category heading appears in the talks list exactly when its
      category has entries. */
  lemma {:induction false} TalkHeadings(data: Profile)
    requires Renderable(data)
    ensures Category(Conferences) in TalksItems(data) <==> NonEmpty(data.talks)
    ensures Category(Instructor) in TalksItems(data) <==> NonEmpty(data.instructor)
    ensures Category(GuestLectures) in TalksItems(data) <==> NonEmpty(data.guestLectures)
    ensures |TalksItems(data)| ==
      (if NonEmpty(data.talks) then 1 + |data.talks.value| else 0)
      + (if NonEmpty(data.instructor) then 1 + |data.instructor.value| else 0)
      + (if NonEmpty(data.guestLectures) then 1 + |data.guestLectures.value| else 0)
  {
    TalkSectionHeadings(data.talks);
    InstructorSectionHeadings(data);
    LectureSectionHeadings(data.guestLectures);
    if NonEmpty(data.talks) {
      assert TalksItems(data)[0] == Category(Conferences);
    }
    if NonEmpty(data.instructor) {
      assert TalksItems(data)[|TalkSection(data.talks)|] == Category(Instructor);
    }
    if NonEmpty(data.guestLectures) {
      assert TalksItems(data)[|TalkSection(data.talks)| + |InstructorSection(data)|] == Category(GuestLectures);
    }
  }

  // ---- Services -----------------------------------------------------------

  function ServiceLine(e: ServiceEntry): string
  {
    "<li>" + e.name + " (" + e.period + ")</li>"
  }

  function ServiceLines(es: seq<ServiceEntry>): string
  {
    if |es| == 0 then "" else ServiceLines(es[..|es| - 1]) + ServiceLine(es[|es| - 1])
  }

  function ServiceBlock(heading: string, es: Option<seq<ServiceEntry>>): string
  {
    if NonEmpty(es) then "<h3>" + heading + "</h3><ul>" + ServiceLines(es.value) + "</ul>" else ""
  }

  const JournalReferee := "Journal Referee"
  const ConferenceReferee := "Conference Referee"
  const OtherServices := "Other Services"

  function ServicesHtml(s: Service): string
  {
    ServiceBlock(JournalReferee, s.journalReferee)
      + ServiceBlock(ConferenceReferee, s.conferenceReferee)
      + ServiceBlock(OtherServices, s.other)
  }

  /** The services markup is empty exactly when all three lists are empty or
      absent, and a non-empty journal list opens it with its heading. */
  lemma ServicesShape(s: Service)
    ensures ServicesHtml(s) == "" <==> !NonEmpty(s.journalReferee) && !NonEmpty(s.conferenceReferee) && !NonEmpty(s.other)
    ensures NonEmpty(s.journalReferee) ==>
      OccursAt(ServicesHtml(s), "<h3>" + JournalReferee + "</h3><ul>", 0)
  {
    if NonEmpty(s.journalReferee) {
      var h := "<h3>" + JournalReferee + "</h3><ul>";
      var b := ServiceBlock(JournalReferee, s.journalReferee);
      assert b == h + ServiceLines(s.journalReferee.value) + "</ul>";
      assert ServicesHtml(s)[..|h|] == h;
    }
  }

  // ---- Experience, collaboration, projects, skills -------------------------

  function ExperienceItem(e: Experience): string
  {
    "\n" + I10 + "<span class=\"year\">" + e.year + "</span>\n"
      + I10 + "<span class=\"details\">\n"
      + I12 + "<strong>" + e.role + "</strong> at " + e.company + "<br>\n"
      + I12 + e.location + IfTruthy(e.workFor, "<br>Working for: ") + "\n"
      + I10 + "</span>\n" + I8
  }

  /** An introduction item, when the introduction is non-empty. */
  function IntroItems(intro: Option<string>): seq<string>
  {
    if Truthy(intro) then [intro.value] else []
  }

  function CompanyItem(c: Company): string
  {
    Labels.Bullet + " <strong><a href=\"" + c.link + "\" target=\"_blank\">" + c.company + "</a></strong> (" + c.domain + ")"
  }

  function ProjectItem(p: Project): string
  {
    Labels.ProjectHtml(p.title, p.role, p.description, p.link)
  }

  function SkillItem(s: Skill): string
  {
    "<strong>" + Labels.Humanize(s.category) + ":</strong> " + s.description
  }

  function FooterText(yearText: string, name: string): string
  {
    "\U{A9} " + yearText + " " + name + ". All rights reserved."
  }

  /** A contact link's new href: set only when the link element exists and the
      value is non-empty. */
  function NewHref(present: bool, value: Option<string>, current: Option<string>): Option<string>
  {
    if present && Truthy(value) then value else current
  }

  /** The email link's new href, a mailto: address. */
  function NewMailHref(present: bool, email: Option<string>, current: Option<string>): Option<string>
  {
    if present && Truthy(email) then Some("mailto:" + email.value) else current
  }

  /** Which optional containers the page has; the renderer skips a section
      whose container is missing. */
  datatype Containers = Containers(
    hasServices: bool, hasExperience: bool, hasCollaboration: bool, hasProjects: bool,
    hasEmailLink: bool, hasLinkedinLink: bool, hasTwitterLink: bool, hasGithubLink: bool)

  /** The hrefs of the email, LinkedIn, Twitter and GitHub links. */
  datatype Hrefs = Hrefs(email: Option<string>, linkedin: Option<string>, twitter: Option<string>, github: Option<string>)

  /** The contact links after rendering: each link present on the page whose
      entry is truthy gets its new href, the others keep theirs. */
  function ContactHrefs(present: Containers, contact: Option<Contact>, current: Hrefs): Hrefs
  {
    if contact.None? then current
    else
      var k := contact.value;
      Hrefs(NewMailHref(present.hasEmailLink, k.email, current.email),
            NewHref(present.hasLinkedinLink, k.linkedin, current.linkedin),
            NewHref(present.hasTwitterLink, k.twitter, current.twitter),
            NewHref(present.hasGithubLink, k.github, current.github))
  }

  /** Everything populateDetailsPage writes: the text of the header and the
      footer, the items of each list container, the services markup, the
      contact links' hrefs, and how often the popover markup was added. */
  datatype PageState = PageState(
    profileName: string, profileTitle: string, aboutText: string,
    education: seq<string>, research: seq<string>, honors: seq<string>,
    papers: seq<string>, talks: seq<string>, services: string,
    experience: seq<string>, collaboration: seq<string>, projects: seq<string>,
    skills: seq<string>,
    links: Hrefs,
    footerText: string, modalInsertions: nat)

  /** The profile name, title and about text. */
  function HeaderRendered(s: PageState, data: Profile): PageState
  {
    s.(profileName := data.name, profileTitle := ProfileTitle, aboutText := data.aboutMe)
  }

  /** Education and research interests. */
  function BackgroundRendered(s: PageState, data: Profile): PageState
  {
    s.(education := s.education + MapSeq(data.education, EducationItem),
       research := s.research + ResearchItems(data.topics, data.methodologies))
  }

  /** Honors, working papers and the talks list. */
  function AcademicRendered(s: PageState, data: Profile): PageState
    requires Renderable(data)
  {
    s.(honors := s.honors + MapSeq(data.honors, HonorItem),
       papers := s.papers + MapSeq(data.workingPapers, PaperItem),
       talks := s.talks + TalksItems(data))
  }

  /** Services, experience, industry collaboration and projects, each only
      when both its container and its entry exist. */
  function IndustryRendered(s: PageState, data: Profile, present: Containers): PageState
  {
    var c := data.industryCollaboration;
    var p := data.industryProjects;
    s.(services := if present.hasServices && data.service.Some? then ServicesHtml(data.service.value) else s.services,
       experience := if present.hasExperience && data.professionalExperience.Some?
         then s.experience + MapSeq(data.professionalExperience.value, ExperienceItem) else s.experience,
       collaboration := if present.hasCollaboration && c.Some? && c.value.companies.Some?
         then s.collaboration + IntroItems(c.value.introduction) + MapSeq(c.value.companies.value, CompanyItem)
         else s.collaboration,
       projects := if present.hasProjects && p.Some? && p.value.projects.Some?
         then s.projects + IntroItems(p.value.introduction) + MapSeq(p.value.projects.value, ProjectItem)
         else s.projects)
  }

  /** Skills, the contact links and the footer. */
  function LinksRendered(s: PageState, data: Profile, yearText: string, present: Containers): PageState
  {
    s.(skills := if data.skills.Some? then s.skills + MapSeq(data.skills.value, SkillItem) else s.skills,
       links := ContactHrefs(present, data.contact, s.links),
       footerText := FooterText(yearText, data.name))
  }

  /** populateDetailsPage on a page in state `s`: the sections in source
      order, then the popover markup added once more. */
  function Populated(s: PageState, data: Profile, yearText: string, present: Containers): PageState
    requires Renderable(data)
  {
    PopoverAdded(LinksRendered(IndustryRendered(AcademicRendered(BackgroundRendered(HeaderRendered(s, data), data), data), data, present),
                               data, yearText, present))
  }

  /** setupModalListeners inserts the popover markup into the body once more. */
  function PopoverAdded(s: PageState): PageState
  {
    s.(modalInsertions := s.modalInsertions + 1)
  }

  /** Rendering never clears a container: a second render keeps every text,
      the services markup and the links as the first left them, appends to
      each list exactly what the first render appended, and adds the popover
      markup a second time. */
  lemma RepopulateDuplicates(s: PageState, data: Profile, yearText: string, present: Containers)
    requires Renderable(data)
    ensures var once := Populated(s, data, yearText, present);
      var twice := Populated(once, data, yearText, present);
      && twice.(education := [], research := [], honors := [], papers := [], talks := [],
                experience := [], collaboration := [], projects := [], skills := [],
                modalInsertions := 0)
         == once.(education := [], research := [], honors := [], papers := [], talks := [],
                  experience := [], collaboration := [], projects := [], skills := [],
                  modalInsertions := 0)
      && twice.modalInsertions == s.modalInsertions + 2
  {
  }

  /** The appended part of a list after a render: what follows the old items. */
  function Added(before: seq<string>, after: seq<string>): seq<string>
  {
    if |before| <= |after| then after[|before|..] else []
  }

  /** Each list container keeps its old items as a prefix, and a second render
      appends the same items the first one did. */
  lemma RepopulateLists(s: PageState, data: Profile, yearText: string, present: Containers)
    requires Renderable(data)
    ensures var once := Populated(s, data, yearText, present);
      var twice := Populated(once, data, yearText, present);
      && s.education <= once.education && twice.education == once.education + Added(s.education, once.education)
      && s.research <= once.research && twice.research == once.research + Added(s.research, once.research)
      && s.honors <= once.honors && twice.honors == once.honors + Added(s.honors, once.honors)
      && s.papers <= once.papers && twice.papers == once.papers + Added(s.papers, once.papers)
      && s.talks <= once.talks && twice.talks == once.talks + Added(s.talks, once.talks)
      && s.experience <= once.experience && twice.experience == once.experience + Added(s.experience, once.experience)
      && s.collaboration <= once.collaboration
      && twice.collaboration == once.collaboration + Added(s.collaboration, once.collaboration)
      && s.projects <= once.projects && twice.projects == once.projects + Added(s.projects, once.projects)
      && s.skills <= once.skills && twice.skills == once.skills + Added(s.skills, once.skills)
  {
    var once := Populated(s, data, yearText, present);
    var twice := Populated(once, data, yearText, present);
    var aEd, aRe, aHo, aPa, aTa := AcademicAdded(s, data, yearText, present);
    var bEd, bRe, bHo, bPa, bTa := AcademicAdded(once, data, yearText, present);
    var aEx, aCo, aPr, aSk := IndustryAdded(s, data, yearText, present);
    var bEx, bCo, bPr, bSk := IndustryAdded(once, data, yearText, present);
    AppendAgain(s.education, aEd, twice.education);
    AppendAgain(s.research, aRe, twice.research);
    AppendAgain(s.honors, aHo, twice.honors);
    AppendAgain(s.papers, aPa, twice.papers);
    AppendAgain(s.talks, aTa, twice.talks);
    AppendAgain(s.experience, aEx, twice.experience);
    AppendAgain(s.collaboration, aCo, twice.collaboration);
    AppendAgain(s.projects, aPr, twice.projects);
    AppendAgain(s.skills, aSk, twice.skills);
  }

  /** The items a render appends to the education, research, honors, papers
      and talks lists depend on the profile alone. */
  lemma AcademicAdded(x: PageState, data: Profile, yearText: string, present: Containers)
    returns (ed: seq<string>, re: seq<string>, ho: seq<string>, pa: seq<string>, ta: seq<string>)
    requires Renderable(data)
    ensures ed == MapSeq(data.education, EducationItem) && re == ResearchItems(data.topics, data.methodologies)
    ensures ho == MapSeq(data.honors, HonorItem) && pa == MapSeq(data.workingPapers, PaperItem)
    ensures ta == TalksItems(data)
    ensures var r := Populated(x, data, yearText, present);
      && r.education == x.education + ed && r.research == x.research + re
      && r.honors == x.honors + ho && r.papers == x.papers + pa && r.talks == x.talks + ta
  {
    ed, re := MapSeq(data.education, EducationItem), ResearchItems(data.topics, data.methodologies);
    ho, pa, ta := MapSeq(data.honors, HonorItem), MapSeq(data.workingPapers, PaperItem), TalksItems(data);
  }

  /** The items a render appends to the experience, collaboration, projects and
      skills lists depend on the profile and the page's containers alone. */
  lemma IndustryAdded(x: PageState, data: Profile, yearText: string, present: Containers)
    returns (ex: seq<string>, co: seq<string>, pr: seq<string>, sk: seq<string>)
    requires Renderable(data)
    ensures var r := Populated(x, data, yearText, present);
      && r.experience == x.experience + ex && r.collaboration == x.collaboration + co
      && r.projects == x.projects + pr && r.skills == x.skills + sk
    ensures (ex, co, pr, sk) == IndustryItems(data, present)
  {
    var a := AcademicRendered(BackgroundRendered(HeaderRendered(x, data), data), data);
    assert a.experience == x.experience && a.collaboration == x.collaboration;
    assert a.projects == x.projects && a.skills == x.skills;
    var i := IndustryRendered(a, data, present);
    ex, co, pr, sk := IndustryStage(a, data, present);
    var l := LinksRendered(i, data, yearText, present);
    assert l.experience == i.experience && l.collaboration == i.collaboration && l.projects == i.projects;
    assert l.skills == i.skills + sk;
  }

  /** What a render appends to the four industry and skills lists. */
  function IndustryItems(data: Profile, present: Containers): (seq<string>, seq<string>, seq<string>, seq<string>)
  {
    var c := data.industryCollaboration;
    var p := data.industryProjects;
    (if present.hasExperience && data.professionalExperience.Some?
       then MapSeq(data.professionalExperience.value, ExperienceItem) else [],
     if present.hasCollaboration && c.Some? && c.value.companies.Some?
       then IntroItems(c.value.introduction) + MapSeq(c.value.companies.value, CompanyItem) else [],
     if present.hasProjects && p.Some? && p.value.projects.Some?
       then IntroItems(p.value.introduction) + MapSeq(p.value.projects.value, ProjectItem) else [],
     if data.skills.Some? then MapSeq(data.skills.value, SkillItem) else [])
  }

  lemma IndustryStage(a: PageState, data: Profile, present: Containers)
    returns (ex: seq<string>, co: seq<string>, pr: seq<string>, sk: seq<string>)
    ensures (ex, co, pr, sk) == IndustryItems(data, present)
    ensures var i := IndustryRendered(a, data, present);
      && i.experience == a.experience + ex && i.collaboration == a.collaboration + co
      && i.projects == a.projects + pr && i.skills == a.skills
  {
    ex, co, pr, sk := IndustryItems(data, present).0, IndustryItems(data, present).1,
      IndustryItems(data, present).2, IndustryItems(data, present).3;
  }

  /** Appending `d` to a list twice. */
  lemma AppendAgain(a: seq<string>, d: seq<string>, twice: seq<string>)
    requires twice == a + d + d
    ensures a <= a + d && Added(a, a + d) == d && twice == (a + d) + Added(a, a + d)
  {
    assert (a + d)[|a|..] == d;
  }

  /** The page's containers. */
  class Page {
    var profileName: string
    var profileTitle: string
    var aboutText: string
    var education: seq<string>
    var research: seq<string>
    var honors: seq<string>
    var papers: seq<string>
    var talks: seq<string>
    var services: string
    var experience: seq<string>
    var collaboration: seq<string>
    var projects: seq<string>
    var skills: seq<string>
    var links: Hrefs
    var footerText: string
    /** How many times the popover markup has been added to the body. */
    var modalInsertions: nat
    const present: Containers

    function State(): PageState
      reads this
    {
      PageState(profileName, profileTitle, aboutText, education, research, honors, papers, talks,
                services, experience, collaboration, projects, skills,
                links, footerText, modalInsertions)
    }

    /** The static page shell: every container empty. */
    constructor (present: Containers)
      ensures this.present == present
      ensures State() == PageState("", "", "", [], [], [], [], [], "", [], [], [], [],
                                   Hrefs(None, None, None, None), "", 0)
    {
      this.present := present;
      profileName, profileTitle, aboutText := "", "", "";
      education, research, honors, papers, talks := [], [], [], [], [];
      experience, collaboration, projects, skills := [], [], [], [];
      services, footerText := "", "";
      links := Hrefs(None, None, None, None);
      modalInsertions := 0;
    }

    /** A course's notes, added one at a time. */
    static method NotesMarkup(notes: seq<string>) returns (html: string)
      ensures html == NotesHtml(notes)
    {
      html := "";
      var j := 0;
      while j < |notes|
        invariant 0 <= j <= |notes|
        invariant html == NotesHtml(notes[..j])
      {
        assert notes[..j + 1][..j] == notes[..j];
        html := html + NoteHtml(notes[j]);
        j := j + 1;
      }
      assert notes[..|notes|] == notes;
    }

    /** One course's markup: its head, its notes, then the closing tags. */
    static method CourseContent(c: Course, formattedTerms: string) returns (html: string)
      ensures html == CourseWith(c, formattedTerms)
    {
      var notes := "";
      if NonEmpty(c.notes) {
        notes := NotesMarkup(c.notes.value);
      }
      html := CourseHead(c, formattedTerms) + notes + "</div></div>";
    }

    /** The instructor roles, one list item per course. */
    static method AppendCourses(list: seq<string>, cs: seq<Course>) returns (r: seq<string>)
      requires forall k :: 0 <= k < |cs| ==> CourseSortable(cs[k])
      ensures r == list + CourseItems(cs)
    {
      r := list;
      var i := 0;
      while i < |cs|
        invariant 0 <= i <= |cs|
        invariant r == list + CourseItems(cs[..i])
      {
        CourseItemsSnoc(cs, i);
        var item := CourseContent(cs[i], Terms.FormatTerms(cs[i].terms));
        r := r + [item];
        i := i + 1;
      }
      assert cs[..|cs|] == cs;
    }

    /** A category heading and its items, appended only when the category has entries. */
    static method AppendTalkSection(list: seq<string>, talks: Option<seq<Talk>>) returns (r: seq<string>)
      ensures r == list + TalkSection(talks)
    {
      r := list;
      if NonEmpty(talks) {
        r := AppendEach(r + [Category(Conferences)], talks.value, TalkItem);
      }
    }

    static method AppendInstructorSection(list: seq<string>, data: Profile) returns (r: seq<string>)
      requires Renderable(data)
      ensures r == list + InstructorSection(data)
    {
      r := list;
      if NonEmpty(data.instructor) {
        r := AppendCourses(r + [Category(Instructor)], data.instructor.value);
      }
    }

    static method AppendLectureSection(list: seq<string>, lectures: Option<seq<Lecture>>) returns (r: seq<string>)
      ensures r == list + LectureSection(lectures)
    {
      r := list;
      if NonEmpty(lectures) {
        r := AppendEach(r + [Category(GuestLectures)], lectures.value, LectureItem);
      }
    }

    /** One service block, its lines added one at a time. */
    static method ServiceBlockMarkup(heading: string, es: Option<seq<ServiceEntry>>) returns (html: string)
      ensures html == ServiceBlock(heading, es)
    {
      html := "";
      if NonEmpty(es) {
        var entries := es.value;
        html := "<h3>" + heading + "</h3><ul>";
        var j := 0;
        while j < |entries|
          invariant 0 <= j <= |entries|
          invariant html == "<h3>" + heading + "</h3><ul>" + ServiceLines(entries[..j])
        {
          assert entries[..j + 1][..j] == entries[..j];
          html := html + ServiceLine(entries[j]);
          j := j + 1;
        }
        assert entries[..|entries|] == entries;
        html := html + "</ul>";
      }
    }

    /** The whole services markup, the three blocks in order. */
    static method ServicesMarkup(s: Service) returns (html: string)
      ensures html == ServicesHtml(s)
    {
      var journal := ServiceBlockMarkup(JournalReferee, s.journalReferee);
      var conference := ServiceBlockMarkup(ConferenceReferee, s.conferenceReferee);
      var other := ServiceBlockMarkup(OtherServices, s.other);
      html := journal + conference + other;
    }

    /** The services container's new markup: replaced when the container
        and the services entry both exist, kept otherwise. */
    static method RenderServices(present: bool, s: Option<Service>, current: string) returns (html: string)
      ensures html == if present && s.Some? then ServicesHtml(s.value) else current
    {
      html := current;
      if present && s.Some? {
        html := ServicesMarkup(s.value);
      }
    }

    static method AppendExperience(present: bool, xs: Option<seq<Experience>>, list: seq<string>) returns (r: seq<string>)
      ensures r == if present && xs.Some? then list + MapSeq(xs.value, ExperienceItem) else list
    {
      r := list;
      if present && xs.Some? {
        r := AppendEach(list, xs.value, ExperienceItem);
      }
    }

    /** The introduction, when there is one, then one item per company. */
    static method AppendCollaboration(present: bool, c: Option<Collaboration>, list: seq<string>) returns (r: seq<string>)
      ensures r == if present && c.Some? && c.value.companies.Some?
        then list + IntroItems(c.value.introduction) + MapSeq(c.value.companies.value, CompanyItem)
        else list
    {
      r := list;
      if present && c.Some? && c.value.companies.Some? {
        if Truthy(c.value.introduction) {
          r := r + [c.value.introduction.value];
        }
        r := AppendEach(r, c.value.companies.value, CompanyItem);
      }
    }

    /** The introduction, when there is one, then one item per project. */
    static method AppendProjects(present: bool, p: Option<Projects>, list: seq<string>) returns (r: seq<string>)
      ensures r == if present && p.Some? && p.value.projects.Some?
        then list + IntroItems(p.value.introduction) + MapSeq(p.value.projects.value, ProjectItem)
        else list
    {
      r := list;
      if present && p.Some? && p.value.projects.Some? {
        if Truthy(p.value.introduction) {
          r := r + [p.value.introduction.value];
        }
        r := AppendEach(r, p.value.projects.value, ProjectItem);
      }
    }

    static method AppendSkills(s: Option<seq<Skill>>, list: seq<string>) returns (r: seq<string>)
      ensures r == if s.Some? then list + MapSeq(s.value, SkillItem) else list
    {
      r := list;
      if s.Some? {
        r := AppendEach(list, s.value, SkillItem);
      }
    }

    static method BackgroundMarkup(s: PageState, data: Profile) returns (t: PageState)
      ensures t == BackgroundRendered(s, data)
    {
      var education := AppendEach(s.education, data.education, EducationItem);
      t := s.(education := education, research := s.research + ResearchItems(data.topics, data.methodologies));
    }

    /** The talks container: conferences, instructor roles, guest lectures. */
    static method AppendTalks(list: seq<string>, data: Profile) returns (r: seq<string>)
      requires Renderable(data)
      ensures r == list + TalksItems(data)
    {
      r := AppendTalkSection(list, data.talks);
      r := AppendInstructorSection(r, data);
      r := AppendLectureSection(r, data.guestLectures);
      AppendThree(list, TalkSection(data.talks), InstructorSection(data), LectureSection(data.guestLectures));
    }

    static method AcademicMarkup(s: PageState, data: Profile) returns (t: PageState)
      requires Renderable(data)
      ensures t == AcademicRendered(s, data)
    {
      var honors := AppendEach(s.honors, data.honors, HonorItem);
      var papers := AppendEach(s.papers, data.workingPapers, PaperItem);
      var talks := AppendTalks(s.talks, data);
      t := s.(honors := honors, papers := papers, talks := talks);
    }

    static method IndustryMarkup(s: PageState, data: Profile, present: Containers) returns (t: PageState)
      ensures t == IndustryRendered(s, data, present)
    {
      var services := RenderServices(present.hasServices, data.service, s.services);
      var experience := AppendExperience(present.hasExperience, data.professionalExperience, s.experience);
      var collaboration := AppendCollaboration(present.hasCollaboration, data.industryCollaboration, s.collaboration);
      var projects := AppendProjects(present.hasProjects, data.industryProjects, s.projects);
      t := s.(services := services, experience := experience, collaboration := collaboration, projects := projects);
    }

    static method LinksMarkup(s: PageState, data: Profile, yearText: string, present: Containers) returns (t: PageState)
      ensures t == LinksRendered(s, data, yearText, present)
    {
      var skills := AppendSkills(data.skills, s.skills);
      t := s.(skills := skills, links := ContactHrefs(present, data.contact, s.links),
              footerText := FooterText(yearText, data.name));
    }

    /** The profile name, title and about text. */
    method RenderHeader(data: Profile)
      modifies this`profileName, this`profileTitle, this`aboutText
      ensures State() == HeaderRendered(old(State()), data)
    {
      profileName, profileTitle, aboutText := data.name, ProfileTitle, data.aboutMe;
    }

    /** Education and research interests. */
    method RenderBackground(data: Profile)
      modifies this`education, this`research
      ensures State() == BackgroundRendered(old(State()), data)
    {
      var t := BackgroundMarkup(State(), data);
      education, research := t.education, t.research;
    }

    /** Honors, working papers and the talks list. */
    method RenderAcademic(data: Profile)
      requires Renderable(data)
      modifies this`honors, this`papers, this`talks
      ensures State() == AcademicRendered(old(State()), data)
    {
      var t := AcademicMarkup(State(), data);
      honors, papers, talks := t.honors, t.papers, t.talks;
    }

    /** Services, experience, industry collaboration and projects. */
    method RenderIndustry(data: Profile)
      modifies this`services, this`experience, this`collaboration, this`projects
      ensures State() == IndustryRendered(old(State()), data, present)
    {
      var t := IndustryMarkup(State(), data, present);
      services, experience, collaboration, projects := t.services, t.experience, t.collaboration, t.projects;
    }

    /** Skills, the contact links and the footer. */
    method RenderLinks(data: Profile, yearText: string)
      modifies this`skills, this`links, this`footerText
      ensures State() == LinksRendered(old(State()), data, yearText, present)
    {
      var t := LinksMarkup(State(), data, yearText, present);
      skills, links, footerText := t.skills, t.links, t.footerText;
    }

    /** populateDetailsPage: the page moves to the state Populated describes.
        `yearText` is the current year as the footer prints it. */
    method Populate(data: Profile, yearText: string)
      requires Renderable(data)
      modifies this
      ensures State() == Populated(old(State()), data, yearText, present)
    {
      RenderHeader(data);
      RenderBackground(data);
      RenderAcademic(data);
      RenderIndustry(data);
      RenderLinks(data, yearText);
      AddPopover();
    }

    method AddPopover()
      modifies this`modalInsertions
      ensures State() == PopoverAdded(old(State()))
    {
      modalInsertions := modalInsertions + 1;
    }
  }
}
