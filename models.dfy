/** The `AudioLecture` record (core/models.py). Text fields hold whatever value
    the code assigned to them; `Null` stands for Python's `None`. */
module Models {
  import opened Json

  datatype Lecture = Lecture(
    id: nat,
    user: nat,
    title: string,
    audioFile: string,
    transcript: Value,
    flashcards: Value,
    summary: Value,
    status: Value,
    pdfFile: Value,
    createdAt: int)

  /** The table of records, by primary key. */
  type Db = map<nat, Lecture>

  /** Every row is stored under its own primary key. */
  predicate KeyedById(db: Db) {
    forall k | k in db :: db[k].id == k
  }
}
