/**
 * The admin's students screen: a paged table of students, each of whom can
 * be switched between Active and Suspended.
 *
 * The status update is an HTTP call: `ToggleStatus` returns the status it
 * requests, and `OnStatusUpdated` takes what the service answers.  The
 * service answers a successful update with the status it was asked for.
 */
module Students {
  import opened Common

  const Active: string := "Active"
  const Suspended: string := "Suspended"

  /** The status a toggle asks for: an active student is suspended, anyone else is activated. */
  function OppositeStatus(status: string): (r: string)
    ensures r == Active || r == Suspended
    ensures r == Suspended <==> status == Active
  {
    if status == Active then Suspended else Active
  }

  /** On the two statuses the backend knows, toggling twice restores the status. */
  lemma OppositeStatusInvolution(status: string)
    requires status == Active || status == Suspended
    ensures OppositeStatus(OppositeStatus(status)) == status
    ensures OppositeStatus(status) != status
  {
  }

  /** Any other status (an unknown or missing value) is toggled to Active, and toggling again suspends. */
  lemma UnknownStatusBecomesActive(status: string)
    requires status != Active && status != Suspended
    ensures OppositeStatus(status) == Active && OppositeStatus(OppositeStatus(status)) == Suspended
  {
  }

  /** `updateStudentStatus`'s answer: the requested status on success, nothing on failure. */
  function UpdateStatusAnswer(requested: string, succeeded: bool): (r: Option<string>)
    ensures r.Some? <==> succeeded
    ensures r.Some? ==> r.value == requested
  {
    if succeeded then Some(requested) else None
  }

  /** A row of the table; its status is changed in place. */
  class Student {
    const id: string
    var status: string

    constructor(id: string, status: string)
      ensures this.id == id && this.status == status
    {
      this.id := id;
      this.status := status;
    }
  }

  class StudentsPage {
    var students: seq<Student>
    var totalRecords: int
    var loading: bool
    /** The 1-based page number sent to the backend. */
    var page: int
    var pageSize: int

    constructor()
      ensures students == [] && totalRecords == 0 && !loading && page == 1 && pageSize == 10
    {
      students := [];
      totalRecords := 0;
      loading := false;
      page := 1;
      pageSize := 10;
    }

    /** `loadStudents`: loading starts and the current page is requested. */
    method LoadStudents() returns (request: (int, int))
      modifies this
      ensures loading && request == (page, pageSize)
      ensures page == old(page) && pageSize == old(pageSize) && students == old(students) && totalRecords == old(totalRecords)
    {
      loading := true;
      request := (page, pageSize);
    }

    /** The answer to the page request: the rows and the total replace the old ones. */
    method OnStudentsLoaded(rows: seq<Student>, total: int)
      modifies this
      ensures students == rows && totalRecords == total && !loading
      ensures page == old(page) && pageSize == old(pageSize)
    {
      students := rows;
      totalRecords := total;
      loading := false;
    }

    /** `onPageChange`: the paginator's 0-based page becomes the 1-based page, its rows the page size, and that page is requested. */
    method OnPageChange(eventPage: int, rows: int) returns (request: (int, int))
      modifies this
      ensures page == eventPage + 1 && pageSize == rows && loading
      ensures request == (eventPage + 1, rows)
      ensures students == old(students) && totalRecords == old(totalRecords)
    {
      page := eventPage + 1;
      pageSize := rows;
      request := LoadStudents();
    }
  }

  /** `toggleStatus`, up to the call: the status it asks the backend for; nothing changes yet. */
  method ToggleStatus(student: Student) returns (requested: string)
    ensures requested == OppositeStatus(student.status)
    ensures requested == Suspended <==> student.status == Active
  {
    requested := if student.status == Active then Suspended else Active;
  }

  /** The answer to the update: the returned status is written into the row; on failure the row is left alone. */
  method OnStatusUpdated(student: Student, answer: Option<string>)
    modifies student
    ensures answer.Some? ==> student.status == answer.value
    ensures answer.None? ==> student.status == old(student.status)
  {
    if answer.Some? {
      student.status := answer.value;
    }
  }

  /** A toggle whose update succeeds flips the status; one that fails leaves it. */
  method ToggleAndAnswer(student: Student, succeeded: bool)
    modifies student
    ensures succeeded ==> student.status == OppositeStatus(old(student.status))
    ensures !succeeded ==> student.status == old(student.status)
  {
    var requested := ToggleStatus(student);
    OnStatusUpdated(student, UpdateStatusAnswer(requested, succeeded));
  }

  /** Two successful toggles of an Active or Suspended student restore the status. */
  method ToggleTwice(student: Student)
    requires student.status == Active || student.status == Suspended
    modifies student
    ensures student.status == old(student.status)
  {
    ToggleAndAnswer(student, true);
    ToggleAndAnswer(student, true);
    OppositeStatusInvolution(old(student.status));
  }
}
