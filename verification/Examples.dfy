/** Concrete lines of the exposition, character by character. */
module Examples {
  import opened Basics
  import opened NodeWrites
  import opened Slots
  import opened TextFormat
  import opened Exporter
  import opened MetricsPrinter

  lemma {:induction false} Numerals()
    ensures Decimal(0) == "0" && Decimal(42) == "42" && Decimal(907) == "907"
    ensures Signed(-1) == "-1" && Signed(12) == "12"
  {
    assert Decimal(90) == Decimal(9) + "0" == "90";
    assert Decimal(4) == "4" && Decimal(42) == Decimal(4) + "2";
    assert Decimal(907) == Decimal(90) + "7";
    assert Decimal(12) == Decimal(1) + "2" && Decimal(1) == "1";
  }

  /** A quote, a backslash and a newline in a query's text. */
  lemma {:induction false} EscapedText()
    ensures Escape("a\"b\\c\nd") == "a\\\"b\\\\c\\nd"
  {
    var t := "a\"b\\c\nd";
    assert t[1..] == "\"b\\c\nd" && t[2..] == "b\\c\nd" && t[3..] == "\\c\nd" && t[4..] == "c\nd";
    assert t[5..] == "\nd" && t[6..] == "d" && t[7..] == "";
    assert Escape("d") == "d" + Escape("") == "d";
    assert "d" == "\nd"[1..] && Escape("\nd") == "\\nd";
    assert "\nd" == "c\nd"[1..] && Escape("c\nd") == "c\\nd";
    assert "c\nd" == "\\c\nd"[1..] && Escape("\\c\nd") == "\\\\c\\nd";
    assert "\\c\nd" == "b\\c\nd"[1..] && Escape("b\\c\nd") == "b\\\\c\\nd";
    assert "b\\c\nd" == "\"b\\c\nd"[1..] && Escape("\"b\\c\nd") == "\\\"b\\\\c\\nd";
    assert "\"b\\c\nd" == t[1..] && Escape(t) == "a" + Escape(t[1..]);
  }

  /** The info line of query 907 of process 42. */
  lemma {:induction false} InfoLine(s: Slot)
    requires s.queryId == 907 && s.pid == 42 && s.text == "a\"b\\c\nd"
    ensures PrintLine(Data(InfoSample(s)))
         == "pg_what_is_happening_query_info{query_id=\"907\",pid=\"42\",query_text=\"a\\\"b\\\\c\\nd\"} 1\n"
  {
    Numerals();
    EscapedText();
    InfoPiecesAreLine(s);
    InfoHead();
    InfoEnd(InfoPiece(907, 42), "a\\\"b\\\\c\\nd", "\"} 1\n");
  }

  lemma {:induction false} InfoEnd(head: string, text: string, end: string)
    requires head == "pg_what_is_happening_query_info{query_id=\"907\",pid=\"42\",query_text=\""
    requires text == "a\\\"b\\\\c\\nd" && end == "\"} 1\n"
    ensures head + text + end
        == "pg_what_is_happening_query_info{query_id=\"907\",pid=\"42\",query_text=\"a\\\"b\\\\c\\nd\"} 1\n"
  {
  }

  lemma {:induction false} InfoLabels()
    ensures Quoted("query_id", "907") + "," + (Quoted("pid", "42") + "," + "query_text=\"")
         == "query_id=\"907\",pid=\"42\",query_text=\""
  {
    assert Quoted("pid", "42") + "," + "query_text=\"" == "pid=\"42\",query_text=\"";
  }

  lemma {:induction false} InfoHead()
    ensures InfoPiece(907, 42) == "pg_what_is_happening_query_info{query_id=\"907\",pid=\"42\",query_text=\""
  {
    Numerals();
    InfoLabels();
    assert INFO + "{" == "pg_what_is_happening_query_info{";
  }

  /** A sample of its root node, a sequential scan with 5 cache hits. */
  lemma {:induction false} NodeLine(sp: Spelling, s: Slot, n: NodeMetrics, total: real)
    requires SpellingOk(sp) && s.queryId == 907 && n.nodeId == 0 && n.parentId == U32_SIZE - 1
    requires sp.tagName(n.tag) == "SeqScan" && n.bufferUsage.cacheHits == 5 && sp.numeral(CacheHits, 5.0) == "5"
    ensures PrintLine(Data(NodeSample(sp, s, n, total, CacheHits)))
         == "pg_what_is_happening_active_query_node_cache_hits{query_id=\"907\",node_id=\"0\","
            + "parent_node_id=\"-1\",node_tag=\"SeqScan\"} 5\n"
  {
    Numerals();
    AsLongIs(5);
    MetricPieceIsLine(sp, s, n, total, CacheHits);
    NodePiece(sp, n);
    NodeParts(NODE + Suffix(CacheHits) + "{", Quoted("query_id", "907"), Quoted("node_id", "0"),
              Quoted("parent_node_id", "-1"), Quoted("node_tag", "SeqScan"), "5");
    NodeHead();
    NodeEnd();
  }

  lemma {:induction false} NodePiece(sp: Spelling, n: NodeMetrics)
    requires n.nodeId == 0 && n.parentId == U32_SIZE - 1 && sp.tagName(n.tag) == "SeqScan"
    requires sp.numeral(CacheHits, 5.0) == "5"
    ensures MetricPiece(sp, 907, n, CacheHits, 5.0)
         == NODE + Suffix(CacheHits) + "{"
            + (Quoted("query_id", "907") + "," + (Quoted("node_id", "0") + ","
            + (Quoted("parent_node_id", "-1") + "," + Quoted("node_tag", "SeqScan")))) + "} " + "5" + "\n"
  {
    Numerals();
    assert ToI32(n.parentId % U32_SIZE) == -1 && ValueText(sp, CacheHits, 5.0) == "5";
  }

  lemma {:induction false} NodeParts(name: string, a: string, b: string, c: string, d: string, value: string)
    ensures name + (a + "," + (b + "," + (c + "," + d))) + "} " + value + "\n"
         == (name + (a + "," + b + ",")) + (c + "," + d + "} " + value + "\n")
  {
    var x, y := a + "," + b + ",", c + "," + d;
    assert a + "," + (b + "," + (c + "," + d)) == x + y;
    assert name + (x + y) == (name + x) + y;
  }

  lemma {:induction false} NodeHead()
    ensures NODE + Suffix(CacheHits) + "{" + (Quoted("query_id", "907") + "," + Quoted("node_id", "0") + ",")
         == "pg_what_is_happening_active_query_node_cache_hits{query_id=\"907\",node_id=\"0\","
  {
    NodeName();
    NodeIds();
    NodeJoined(NODE + Suffix(CacheHits) + "{", Quoted("query_id", "907") + "," + Quoted("node_id", "0") + ",");
  }

  lemma {:induction false} NodeIds()
    ensures Quoted("query_id", "907") + "," + Quoted("node_id", "0") + "," == "query_id=\"907\",node_id=\"0\","
  {
  }

  lemma {:induction false} NodeJoined(a: string, b: string)
    requires a == "pg_what_is_happening_active_query_node_cache_hits{" && b == "query_id=\"907\",node_id=\"0\","
    ensures a + b == "pg_what_is_happening_active_query_node_cache_hits{query_id=\"907\",node_id=\"0\","
  {
  }

  lemma {:induction false} NodeName()
    ensures NODE + Suffix(CacheHits) + "{" == "pg_what_is_happening_active_query_node_cache_hits{"
  {
  }

  lemma {:induction false} NodeEnd()
    ensures Quoted("parent_node_id", "-1") + "," + Quoted("node_tag", "SeqScan") + "} " + "5" + "\n"
         == "parent_node_id=\"-1\",node_tag=\"SeqScan\"} 5\n"
  {
    assert Quoted("parent_node_id", "-1") + "," + Quoted("node_tag", "SeqScan")
        == "parent_node_id=\"-1\",node_tag=\"SeqScan\"";
  }

  /** The HELP and TYPE lines of the query metric. */
  lemma {:induction false} InfoHeader()
    ensures Render(HelpHeader(INFO, INFO_HELP))
         == "# HELP pg_what_is_happening_query_info Query metadata for active queries\n"
            + "# TYPE pg_what_is_happening_query_info gauge\n"
  {
    HelpAndTypeIsLines(INFO, INFO_HELP);
    HelpLine(INFO, INFO_HELP);
    TypeLine(INFO);
    HelpThenType("# HELP " + INFO + " " + INFO_HELP + "\n", INFO);
  }

  lemma {:induction false} HelpThenType(line: string, name: string)
    ensures line + "# TYPE " + name + " gauge\n" == line + ("# TYPE " + name + " gauge\n")
  {
  }

  lemma {:induction false} HelpLine(name: string, help: string)
    requires name == "pg_what_is_happening_query_info" && help == "Query metadata for active queries"
    ensures "# HELP " + name + " " + help + "\n"
         == "# HELP pg_what_is_happening_query_info Query metadata for active queries\n"
  {
    Assoc("# HELP " + name + " ", help, "\n");
    HelpParts(name, help);
    HelpJoined("# HELP " + name + " ", help + "\n");
  }

  lemma {:induction false} HelpParts(name: string, help: string)
    requires name == "pg_what_is_happening_query_info" && help == "Query metadata for active queries"
    ensures "# HELP " + name + " " == "# HELP pg_what_is_happening_query_info "
    ensures help + "\n" == "Query metadata for active queries\n"
  {
  }

  lemma {:induction false} HelpJoined(a: string, b: string)
    requires a == "# HELP pg_what_is_happening_query_info " && b == "Query metadata for active queries\n"
    ensures a + b == "# HELP pg_what_is_happening_query_info Query metadata for active queries\n"
  {
  }

  lemma {:induction false} TypeLine(name: string)
    requires name == "pg_what_is_happening_query_info"
    ensures "# TYPE " + name + " gauge\n" == "# TYPE pg_what_is_happening_query_info gauge\n"
  {
  }
}
