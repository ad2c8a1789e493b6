/**
 * The admin area's frame: the side menu and the header title, which follows
 * the URL after every navigation and is also set directly by the menu's
 * commands.
 */
module AdminLayout {
  import opened Common

  const DashboardLink: string := "/admin/dashboard"
  const StudentsLink: string := "/admin/students"
  const ExamsLink: string := "/admin/exams"
  const ExamConfigurationsLink: string := "/admin/exam-configurations"
  const CreateQuestionLink: string := "/admin/create-question"

  /** The five header titles. */
  const AdminTitles: set<string> := {"Dashboard", "Students", "Exams", "Exam Configurations", "Questions"}

  /**
   * `setHeaderTitle`'s choice: the URL fragments are tried in order
   * (dashboard, students, exams, exam configurations, create question), the
   * first one the URL contains names the title, and any other URL shows the
   * dashboard's title.
   */
  function AdminTitle(url: string): (title: string)
    ensures title in AdminTitles
    ensures Contains(url, DashboardLink) ==> title == "Dashboard"
    ensures title == "Students" <==> !Contains(url, DashboardLink) && Contains(url, StudentsLink)
    ensures title == "Exams" <==> !Contains(url, DashboardLink) && !Contains(url, StudentsLink) && Contains(url, ExamsLink)
    ensures title == "Exam Configurations" <==>
      (!Contains(url, DashboardLink) && !Contains(url, StudentsLink) && !Contains(url, ExamsLink) &&
       Contains(url, ExamConfigurationsLink))
    ensures title == "Questions" <==>
      (!Contains(url, DashboardLink) && !Contains(url, StudentsLink) && !Contains(url, ExamsLink) &&
       !Contains(url, ExamConfigurationsLink) && Contains(url, CreateQuestionLink))
  {
    if Contains(url, DashboardLink) then "Dashboard"
    else if Contains(url, StudentsLink) then "Students"
    else if Contains(url, ExamsLink) then "Exams"
    else if Contains(url, ExamConfigurationsLink) then "Exam Configurations"
    else if Contains(url, CreateQuestionLink) then "Questions"
    else "Dashboard"
  }

  /** A URL naming no admin page shows the dashboard's title. */
  lemma UnknownUrlShowsDashboard(url: string)
    requires !Contains(url, DashboardLink) && !Contains(url, StudentsLink) && !Contains(url, ExamsLink)
    requires !Contains(url, ExamConfigurationsLink) && !Contains(url, CreateQuestionLink)
    ensures AdminTitle(url) == "Dashboard"
  {
  }

  // ----- The titles of the menu's own links -----

  lemma DashboardLinkTitle(url: string)
    requires url == "/admin/dashboard"
    ensures AdminTitle(url) == "Dashboard"
  {
    ContainsSelf(url);
  }

  lemma StudentsLinkTitle(url: string)
    requires url == "/admin/students"
    ensures AdminTitle(url) == "Students"
  {
    assert DashboardLink[10] == 'h' && 'h' !in url;
    AbsentCharRefutes(url, DashboardLink, 10);
    ContainsSelf(url);
  }

  lemma ExamsLinkTitle(url: string)
    requires url == "/admin/exams"
    ensures AdminTitle(url) == "Exams"
  {
    assert DashboardLink[10] == 'h' && 'h' !in url;
    AbsentCharRefutes(url, DashboardLink, 10);
    assert StudentsLink[8] == 't' && 't' !in url;
    AbsentCharRefutes(url, StudentsLink, 8);
    ContainsSelf(url);
  }

  /** `/admin/exam-configurations` has no `/s` and no `ms`, so it names neither the students nor the exams page. */
  lemma ExamConfigurationsLinkMisses(url: string)
    requires url == "/admin/exam-configurations"
    ensures !Contains(url, StudentsLink) && !Contains(url, ExamsLink)
  {
    assert StudentsLink[6] == '/' && StudentsLink[7] == 's';
    assert forall j :: 0 <= j < |url| - 1 ==> !(url[j] == '/' && url[j + 1] == 's');
    AbsentPairRefutes(url, StudentsLink, 6);
    ExamConfigurationsLinkMissesExams(url);
  }

  lemma ExamConfigurationsLinkMissesExams(url: string)
    requires url == "/admin/exam-configurations"
    ensures !Contains(url, ExamsLink)
  {
    assert ExamsLink[10] == 'm' && ExamsLink[11] == 's';
    assert forall j :: 0 <= j < |url| - 1 ==> !(url[j] == 'm' && url[j + 1] == 's');
    AbsentPairRefutes(url, ExamsLink, 10);
  }

  lemma ExamConfigurationsLinkTitle(url: string)
    requires url == "/admin/exam-configurations"
    ensures AdminTitle(url) == "Exam Configurations"
  {
    assert DashboardLink[10] == 'h' && 'h' !in url;
    AbsentCharRefutes(url, DashboardLink, 10);
    ExamConfigurationsLinkMisses(url);
    ContainsSelf(url);
  }

  /** `/admin/create-question` has no `/s` and no `x`, so it names none of the earlier pages. */
  lemma CreateQuestionLinkMisses(url: string)
    requires url == "/admin/create-question"
    ensures !Contains(url, StudentsLink) && !Contains(url, ExamsLink) && !Contains(url, ExamConfigurationsLink)
  {
    assert StudentsLink[6] == '/' && StudentsLink[7] == 's';
    assert forall j :: 0 <= j < |url| - 1 ==> !(url[j] == '/' && url[j + 1] == 's');
    AbsentPairRefutes(url, StudentsLink, 6);
    assert ExamsLink[8] == 'x' && ExamConfigurationsLink[8] == 'x' && 'x' !in url;
    AbsentCharRefutes(url, ExamsLink, 8);
    AbsentCharRefutes(url, ExamConfigurationsLink, 8);
  }

  lemma CreateQuestionLinkTitle(url: string)
    requires url == "/admin/create-question"
    ensures AdminTitle(url) == "Questions"
  {
    assert DashboardLink[10] == 'h' && 'h' !in url;
    AbsentCharRefutes(url, DashboardLink, 10);
    CreateQuestionLinkMisses(url);
    ContainsSelf(url);
  }

  // ----- The menu -----

  /** A PrimeNG menu item (`caption` is its `label`); `command` is the title its click handler passes to `setHeader`. */
  datatype MenuItem = MenuItem(caption: string, icon: string, routerLink: Option<string>, command: Option<string>, items: seq<MenuItem>)

  /** `menuItems`: four top-level entries, the last one a group of two. */
  const AdminMenu: seq<MenuItem> := [
    MenuItem("Dashboard", "pi pi-home", Some(DashboardLink), Some("Dashboard"), []),
    MenuItem("Students", "pi pi-users", Some(StudentsLink), Some("Students"), []),
    MenuItem("Exams", "pi pi-book", Some(ExamsLink), Some("Exams"), []),
    MenuItem("Subjects", "pi pi-bookmark", None, None, [
      MenuItem("Exam Configurations", "pi pi-cog", Some(ExamConfigurationsLink), Some("Exam Configurations"), []),
      MenuItem("Questions", "pi pi-question-circle", Some(CreateQuestionLink), Some("Questions"), [])])]

  /** Every entry of a menu, each followed by its sub-items, in display order. */
  function Entries(menu: seq<MenuItem>): (r: seq<MenuItem>)
    ensures forall i :: 0 <= i < |menu| ==> menu[i] in r
  {
    if menu == [] then [] else [menu[0]] + menu[0].items + Entries(menu[1..])
  }

  /** A menu entry linking a page names the same title as the URL of that page does. */
  predicate CommandMatchesLink(item: MenuItem) {
    item.routerLink.Some? ==> item.command == Some(AdminTitle(item.routerLink.value))
  }

  /**
   * Clicking any menu entry sets the title that navigating to its link
   * would set, and every entry that links somewhere has a command.
   */
  lemma MenuCommandsMatchTitles()
    ensures forall item :: item in Entries(AdminMenu) ==> CommandMatchesLink(item) && (item.routerLink.Some? ==> item.command.Some?)
  {
    MenuEntries();
    forall item | item in Entries(AdminMenu)
      ensures CommandMatchesLink(item) && (item.routerLink.Some? ==> item.command.Some?)
    {
      MenuItemMatches(item);
    }
  }

  lemma MenuItemMatches(item: MenuItem)
    requires item in [AdminMenu[0], AdminMenu[1], AdminMenu[2], AdminMenu[3], AdminMenu[3].items[0], AdminMenu[3].items[1]]
    ensures CommandMatchesLink(item) && (item.routerLink.Some? ==> item.command.Some?)
  {
    if item.routerLink.Some? {
      var url := item.routerLink.value;
      if url == DashboardLink {
        DashboardLinkTitle(url);
      } else if url == StudentsLink {
        StudentsLinkTitle(url);
      } else if url == ExamsLink {
        ExamsLinkTitle(url);
      } else if url == ExamConfigurationsLink {
        ExamConfigurationsLinkTitle(url);
      } else {
        CreateQuestionLinkTitle(url);
      }
    }
  }

  /** The menu's entries, the group's two items after the group. */
  lemma MenuEntries()
    ensures Entries(AdminMenu) == [AdminMenu[0], AdminMenu[1], AdminMenu[2], AdminMenu[3], AdminMenu[3].items[0], AdminMenu[3].items[1]]
  {
    var m := AdminMenu;
    assert m[0].items == [] && m[1].items == [] && m[2].items == [];
    assert m[3..][1..] == [];
    assert Entries(m[3..]) == [m[3]] + m[3].items;
    assert m[2..][1..] == m[3..];
    assert Entries(m[2..]) == [m[2]] + Entries(m[3..]);
    assert m[1..][1..] == m[2..];
    assert Entries(m[1..]) == [m[1]] + Entries(m[2..]);
    assert Entries(m) == [m[0], m[1], m[2], m[3], m[3].items[0], m[3].items[1]];
  }

  // ----- The component -----

  class AdminFrame {
    var headerTitle: string
    var userName: Option<string>

    /** The constructor: the title of the URL it opens on, and the user's name. */
    constructor(url: string, name: Option<string>)
      ensures headerTitle == AdminTitle(url) && userName == name
    {
      headerTitle := AdminTitle(url);
      userName := name;
    }

    /** `setHeaderTitle`, run on every completed navigation. */
    method SetHeaderTitle(url: string)
      modifies this
      ensures headerTitle == AdminTitle(url) && headerTitle in AdminTitles
      ensures userName == old(userName)
    {
      headerTitle := AdminTitle(url);
    }

    /** `setHeader`. */
    method SetHeader(title: string)
      modifies this
      ensures headerTitle == title && userName == old(userName)
    {
      headerTitle := title;
    }

    /** A click on a menu entry: its command, if it has one. */
    method RunCommand(item: MenuItem)
      modifies this
      ensures item.command.Some? ==> headerTitle == item.command.value
      ensures item.command.None? ==> headerTitle == old(headerTitle)
      ensures userName == old(userName)
    {
      if item.command.Some? {
        SetHeader(item.command.value);
      }
    }
  }

  /** Clicking a linked menu entry and then arriving at its page leaves the title the click set. */
  method ClickThenNavigate(frame: AdminFrame, item: MenuItem)
    requires item in Entries(AdminMenu) && item.routerLink.Some?
    modifies frame
    ensures Some(frame.headerTitle) == item.command
    ensures frame.headerTitle == AdminTitle(item.routerLink.value)
  {
    MenuCommandsMatchTitles();
    frame.RunCommand(item);
    var title := frame.headerTitle;
    frame.SetHeaderTitle(item.routerLink.value);
    assert frame.headerTitle == title;
  }
}
