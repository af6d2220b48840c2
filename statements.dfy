/**
 * The SQL statements the route handlers send, written as the handlers assemble
 * them, and what their placeholders are: each `...Statement` lemma cuts a
 * statement into its placeholder-free segments. Segment `i` is the text right
 * before parameter `i`, and by `Sql.JoinSegments` the segments determine the text.
 *
 * The `...Text`, `...Split` and `...Plain` lemmas at the end hold the
 * character-level facts about the literals. They, and the constants written as
 * two literals where the handler has one, only keep each proof small for the
 * verifier; they change no text.
 */
module Statements {
  import opened Sql

  /** GET /pathways/:PathwayID with an id: `"SELECT * FROM pathways"` then `+= " WHERE PathwayID = ?"`. */
  const SelectById := "SELECT * FROM pathways" + " WHERE PathwayID = ?"
  /** GET /pathways without an id: `+= " ORDER BY PathwayName"`. */
  const SelectAll := "SELECT * FROM pathways" + " ORDER BY PathwayName"
  /** GET /RegistrationResults with an id. */
  const ResultsById := "SELECT * FROM vw_register_results" + " WHERE RegisterID = ?"
  /** GET /RegistrationResults without an id. */
  const ResultsAll := "SELECT * FROM vw_register_results" + " ORDER BY Member_Name"
  /** POST /pathways/: one literal in the handler, written here in two parts. */
  const InsertPathway := "INSERT INTO pathways (PathwayID, PathwayName )" + " VALUES (?, ?)"
  /** DELETE /pathways/:PathwayID: one literal in the handler, written here in two parts. */
  const DeleteById := "DELETE FROM pathways" + " WHERE PathwayID = ?"
  /** DELETE /sp/:AlumID: one literal in the handler, written here in two parts. */
  const CallDeleteRow := "CALL sp_deleteRow(" + "?)"
  /** PUT /pathways/:PathwayID: `"UPDATE pathways SET "` then `+= setSQL`, where
      setSQL is `"PathwayName = ?"` then `+= " WHERE PathwayID = ?"`. */
  const UpdateName := "UPDATE pathways SET " + ("PathwayName = ?" + " WHERE PathwayID = ?")

  // ---------------------------------------------------------------------------
  // Segments of each statement

  /** The id fills the comparison with PathwayID. */
  lemma SelectByIdStatement()
    ensures Segments(SelectById) == ["SELECT * FROM pathways WHERE PathwayID = ", ""]
    ensures Placeholders(SelectById) == 1
  {
    SelectByIdText();
    SelectByIdPlain();
    TwoPieces("SELECT * FROM pathways WHERE PathwayID = ", "");
  }

  /** The whole collection, by name, takes no parameter. */
  lemma SelectAllStatement()
    ensures Segments(SelectAll) == ["SELECT * FROM pathways ORDER BY PathwayName"]
    ensures Placeholders(SelectAll) == 0
  {
    SelectAllText();
    SelectAllPlain();
    OnePiece("SELECT * FROM pathways ORDER BY PathwayName");
  }

  /** The id fills the comparison with RegisterID. */
  lemma ResultsByIdStatement()
    ensures Segments(ResultsById) == ["SELECT * FROM vw_register_results WHERE RegisterID = ", ""]
    ensures Placeholders(ResultsById) == 1
  {
    ResultsByIdText();
    ResultsByIdSplit();
    ResultsByIdPlain();
    TwoPieces("SELECT * FROM vw_register_results WHERE RegisterID = ", "");
  }

  /** The whole view, by member name, takes no parameter. */
  lemma ResultsAllStatement()
    ensures Segments(ResultsAll) == ["SELECT * FROM vw_register_results ORDER BY Member_Name"]
    ensures Placeholders(ResultsAll) == 0
  {
    ResultsAllText();
    ResultsAllPlain();
    OnePiece("SELECT * FROM vw_register_results ORDER BY Member_Name");
  }

  /** The first parameter is the first value, for column PathwayID; the second is the
      second value, for column PathwayName. */
  lemma InsertPathwayStatement()
    ensures Segments(InsertPathway) == ["INSERT INTO pathways (PathwayID, PathwayName ) VALUES (", ", ", ")"]
    ensures Placeholders(InsertPathway) == 2
  {
    InsertText();
    InsertSplit();
    InsertPlain();
    ThreePieces("INSERT INTO pathways (PathwayID, PathwayName ) VALUES (", ", ", ")");
  }

  /** The id fills the comparison with PathwayID. */
  lemma DeleteByIdStatement()
    ensures Segments(DeleteById) == ["DELETE FROM pathways WHERE PathwayID = ", ""]
    ensures Placeholders(DeleteById) == 1
  {
    DeleteText();
    DeletePlain();
    TwoPieces("DELETE FROM pathways WHERE PathwayID = ", "");
  }

  /** The id is the procedure's one argument. */
  lemma CallDeleteRowStatement()
    ensures Segments(CallDeleteRow) == ["CALL sp_deleteRow(", ")"]
    ensures Placeholders(CallDeleteRow) == 1
  {
    CallDeleteText();
    TwoPieces("CALL sp_deleteRow(", ")");
  }

  /** The first parameter is the new name, the second the id the WHERE clause selects. */
  lemma UpdateNameStatement()
    ensures Segments(UpdateName) == ["UPDATE pathways SET PathwayName = ", " WHERE PathwayID = ", ""]
    ensures Placeholders(UpdateName) == 2
  {
    UpdateText();
    UpdatePlain();
    ThreePieces("UPDATE pathways SET PathwayName = ", " WHERE PathwayID = ", "");
  }

  // ---------------------------------------------------------------------------
  // Character-level facts about the literals, one per lemma so that each proof
  // stays small: where a statement is cut, and that the pieces hold no `?`

  lemma SelectByIdText()
    ensures SelectById == "SELECT * FROM pathways WHERE PathwayID = " + [Mark] + ""
  {
  }

  lemma SelectByIdPlain()
    ensures Plain("SELECT * FROM pathways WHERE PathwayID = ")
  {
  }

  lemma SelectAllText()
    ensures SelectAll == "SELECT * FROM pathways ORDER BY PathwayName"
  {
  }

  lemma SelectAllPlain()
    ensures Plain(SelectAll)
  {
  }

  lemma ResultsByIdText()
    ensures ResultsById == "SELECT * FROM vw_register_results WHERE RegisterID = " + [Mark] + ""
  {
  }

  lemma ResultsByIdSplit()
    ensures "SELECT * FROM vw_register_results WHERE RegisterID = "
         == "SELECT * FROM vw_register_results" + " WHERE RegisterID = "
  {
  }

  lemma ResultsByIdPlain()
    ensures Plain("SELECT * FROM vw_register_results" + " WHERE RegisterID = ")
  {
  }

  lemma ResultsAllText()
    ensures ResultsAll == "SELECT * FROM vw_register_results ORDER BY Member_Name"
  {
  }

  lemma ResultsAllPlain()
    ensures Plain(ResultsAll)
  {
  }

  lemma InsertText()
    ensures InsertPathway
         == "INSERT INTO pathways (PathwayID, PathwayName ) VALUES (" + [Mark] + ", " + [Mark] + ")"
  {
  }

  lemma InsertSplit()
    ensures "INSERT INTO pathways (PathwayID, PathwayName ) VALUES ("
         == "INSERT INTO pathways (PathwayID, " + "PathwayName ) VALUES ("
  {
  }

  lemma InsertPlain()
    ensures Plain("INSERT INTO pathways (PathwayID, " + "PathwayName ) VALUES (")
    ensures Plain(", ") && Plain(")")
  {
  }

  lemma DeleteText()
    ensures DeleteById == "DELETE FROM pathways WHERE PathwayID = " + [Mark] + ""
  {
  }

  lemma DeletePlain()
    ensures Plain("DELETE FROM pathways WHERE PathwayID = ")
  {
  }

  lemma CallDeleteText()
    ensures CallDeleteRow == "CALL sp_deleteRow(" + [Mark] + ")"
    ensures Plain("CALL sp_deleteRow(") && Plain(")")
  {
  }

  lemma UpdateText()
    ensures UpdateName
         == "UPDATE pathways SET PathwayName = " + [Mark] + " WHERE PathwayID = " + [Mark] + ""
  {
  }

  lemma UpdatePlain()
    ensures Plain("UPDATE pathways SET PathwayName = ") && Plain(" WHERE PathwayID = ")
  {
  }
}
