/**
 * The shapes the subject endpoints exchange.  The endpoints themselves are
 * HTTP calls; the screens that use them take their answers as inputs.
 */
module SubjectService {
  /** A subject of the catalogue. */
  datatype Subject = Subject(id: int, name: string)

  /** How an exam of a subject is assembled: question counts per difficulty and the duration. */
  datatype ExamConfig = ExamConfig(numEasy: int, numMedium: int, numHard: int, duration: int)
}
