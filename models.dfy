/** The feed's card record `Visualization` and its mock data. */
module Models {
  import opened Wrappers

  /** A `UUID`, kept abstract: only equality of ids is used. */
  datatype Uuid = Uuid(bits: nat)

  /**
   * One feed card. The constructor's defaults are the Swift initialiser's:
   * no board, 30 seconds, not playing, not looping. `id`, `imageURL`,
   * `affirmation`, `board` and `durationSeconds` are `let` constants; only the
   * two flags are `var`.
   */
  datatype Visualization = Visualization(
    id: Uuid,
    imageURL: string,
    affirmation: string,
    board: Option<string> := None,
    durationSeconds: int := 30,
    isPlaying: bool := false,
    isLooping: bool := false)

  /** `a` and `b` agree on every `let` field; they may differ only in the two flags. */
  predicate SameRecord(a: Visualization, b: Visualization)
  {
    a.id == b.id && a.imageURL == b.imageURL && a.affirmation == b.affirmation
    && a.board == b.board && a.durationSeconds == b.durationSeconds
  }

  /** The initialiser's defaults, and every argument stored in the field of the same name. */
  lemma InitDefaults(id: Uuid, imageURL: string, affirmation: string)
    ensures var v := Visualization(id, imageURL, affirmation);
      v.id == id && v.imageURL == imageURL && v.affirmation == affirmation
      && v.board == None && v.durationSeconds == 30 && !v.isPlaying && !v.isLooping
  {
  }

  /** The image addresses and affirmations of the five mock cards. */
  const MockImageUrls: seq<string> := [
    "https://images.unsplash.com/photo-1656192390126-17080e87ec10?ixid=M3w4OTk0OHwwfDF8c2VhcmNofDExfHxnZXJtYW4lMjBzaGVwaGVyZHxlbnwwfHx8fDE3NTkwMzIwOTJ8MA&ixlib=rb-4.1.0",
    "https://images.unsplash.com/photo-1503256207526-0d5d80fa2f47?ixid=M3w4OTk0OHwwfDF8c2VhcmNofDJ8fGRvZ3xlbnwwfHx8fDE3NTkwMzE4NTB8MA&ixlib=rb-4.1.0",
    "https://images.unsplash.com/photo-1633564522273-2b2a3f21d860?ixid=M3w4OTk0OHwwfDF8c2VhcmNofDIxfHxnZXJtYW4lMjBzaGVwaGVyZHxlbnwwfHx8fDE3NTkwMzIwOTJ8MA&ixlib=rb-4.1.0",
    "https://images.unsplash.com/photo-1506905925346-21bda4d32df4?w=800",
    "https://images.unsplash.com/photo-1519681393784-d120267933ba?w=800"]

  const MockAffirmations: seq<string> := [
    "I move my body and feel stronger every day.",
    "I am happy and confident.",
    "I hear and obey God's word.",
    "I welcome abundance and prosperity into my life.",
    "My mind is clear and focused on my goals."]

  /**
   * `Visualization.mockData`: five cards created with fresh ids. The ids that
   * `UUID()` produces are taken as the parameter `ids`.
   */
  function MockData(ids: seq<Uuid>): (r: seq<Visualization>)
    requires |ids| == 5
    ensures |r| == 5
    ensures forall i :: 0 <= i < 5 ==>
      r[i].id == ids[i] && r[i].board.Some? && r[i].durationSeconds > 0 && !r[i].isPlaying && !r[i].isLooping
  {
    [ Visualization(
        ids[0],
        MockImageUrls[0],
        MockAffirmations[0],
        board := Some("Fitness"),
        durationSeconds := 45),
      Visualization(
        ids[1],
        MockImageUrls[1],
        MockAffirmations[1],
        board := Some("Wellness"),
        durationSeconds := 30),
      Visualization(
        ids[2],
        MockImageUrls[2],
        MockAffirmations[2],
        board := Some("Spiritual"),
        durationSeconds := 60),
      Visualization(
        ids[3],
        MockImageUrls[3],
        MockAffirmations[3],
        board := Some("Abundance"),
        durationSeconds := 40),
      Visualization(
        ids[4],
        MockImageUrls[4],
        MockAffirmations[4],
        board := Some("Focus"),
        durationSeconds := 35) ]
  }
}
