/** MotorServer/CommandView.cs: one row of the client's pending command list. */
module CommandViews {

  import opened Strings

  /** A row: the command label (Komanda), the speed text (Brzina) and the
      duration text (Trajanje). The datatype constructor is the three-argument
      constructor, which stores its arguments unchanged. */
  datatype CommandView = CommandView(komanda: string, brzina: string, trajanje: string)

  /** TrajanjeVal: the duration text up to its first space. */
  function TrajanjeVal(v: CommandView): (r: string)
    ensures ' ' !in r
    ensures r <= v.trajanje
    ensures |r| < |v.trajanje| ==> v.trajanje[|r|] == ' '
  {
    FirstField(v.trajanje, ' ')
  }

  /** The client stores a duration as its text plus " ms"; TrajanjeVal takes the
      suffix off again, and a duration text without spaces comes back whole. */
  lemma TrajanjeValRoundTrip(komanda: string, brzina: string, duration: string)
    ensures TrajanjeVal(CommandView(komanda, brzina, duration + " ms")) == FirstField(duration, ' ')
    ensures ' ' !in duration ==> TrajanjeVal(CommandView(komanda, brzina, duration + " ms")) == duration
  {
    FirstFieldIgnoresTail(duration, " ms", ' ');
    if ' ' !in duration {
      WholeWhenNoSeparator(duration, ' ');
    }
  }
}
