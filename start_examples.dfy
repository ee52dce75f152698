/** The concrete scenarios of the repository's unit tests, stated against the model. */
module StartExamples {
  import opened Wrappers
  import opened Upstream
  import opened Start

  /** Two listed stops come back as two `{id, name}` entries, in order. */
  lemma StopsListingExample()
    ensures GetStops(Ok(StopsDocument(Some([
              StopListItem("1", StopListAttributes("Stop 1")),
              StopListItem("2", StopListAttributes("Stop 2"))]))))
         == [Stop("1", "Stop 1"), Stop("2", "Stop 2")]
  {
  }

  /** A single-stop document with a name resolves to that name. */
  lemma LocationExample()
    ensures GetLocation(Ok(StopDocument(Some(StopResource(Some(StopAttributes(Present("Location 1")))))))) == Ok(Some("Location 1"))
  {
  }
}
