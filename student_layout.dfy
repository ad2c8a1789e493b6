/**
 * The student area's frame: its header title follows the URL after every
 * navigation.
 */
module StudentLayout {
  import opened Common

  const ExamsHistoryLink: string := "/student/exams-history"
  const TakeExamLink: string := "/student/take-exam"

  /** The three header titles. */
  const StudentTitles: set<string> := {"Exams History", "Take Exam", "Dashboard"}

  /**
   * `setHeaderTitle`'s choice: the exam history wins, then taking an exam,
   * and any other URL shows the dashboard's title.
   */
  function StudentTitle(url: string): (title: string)
    ensures title in StudentTitles
    ensures title == "Exams History" <==> Contains(url, ExamsHistoryLink)
    ensures title == "Take Exam" <==> !Contains(url, ExamsHistoryLink) && Contains(url, TakeExamLink)
    ensures title == "Dashboard" <==> !Contains(url, ExamsHistoryLink) && !Contains(url, TakeExamLink)
  {
    if Contains(url, ExamsHistoryLink) then "Exams History"
    else if Contains(url, TakeExamLink) then "Take Exam"
    else "Dashboard"
  }

  /** A URL holding both fragments shows the exam history: the first test wins. */
  lemma HistoryWinsOverTakeExam(url: string, i: nat, j: nat)
    requires OccursAt(url, ExamsHistoryLink, i) && OccursAt(url, TakeExamLink, j)
    ensures StudentTitle(url) == "Exams History"
  {
    ContainsAt(url, ExamsHistoryLink, i);
  }

  lemma ExamsHistoryLinkTitle(url: string)
    requires url == "/student/exams-history"
    ensures StudentTitle(url) == "Exams History"
  {
    ContainsSelf(url);
  }

  lemma TakeExamLinkTitle(url: string)
    requires url == "/student/take-exam"
    ensures StudentTitle(url) == "Take Exam"
  {
    assert ExamsHistoryLink[15] == 'h' && 'h' !in url;
    AbsentCharRefutes(url, ExamsHistoryLink, 15);
    ContainsSelf(url);
  }

  /** The area's own root shows the dashboard's title. */
  lemma AreaRootTitle(url: string)
    requires url == "/student"
    ensures StudentTitle(url) == "Dashboard"
  {
    assert ExamsHistoryLink[8] == '/' && '/' == url[0];
    assert 'x' !in url && ExamsHistoryLink[10] == 'x';
    AbsentCharRefutes(url, ExamsHistoryLink, 10);
    assert 'k' !in url && TakeExamLink[11] == 'k';
    AbsentCharRefutes(url, TakeExamLink, 11);
  }

  class StudentFrame {
    var headerTitle: string
    var userName: Option<string>

    /** The constructor: the title of the URL it opens on, and the user's name. */
    constructor(url: string, name: Option<string>)
      ensures headerTitle == StudentTitle(url) && userName == name
    {
      headerTitle := StudentTitle(url);
      userName := name;
    }

    /** `setHeaderTitle`, run on every completed navigation. */
    method SetHeaderTitle(url: string)
      modifies this
      ensures headerTitle == StudentTitle(url) && headerTitle in StudentTitles
      ensures userName == old(userName)
    {
      headerTitle := StudentTitle(url);
    }
  }
}
