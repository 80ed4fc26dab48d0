/** The tables, provider and clock the image services share, updated in place. */
module ImageDatabase {
  import opened Prelude
  import opened ImagePolicy
  import opened ImageState

  class Database {
    const cfg: Config
    var storage: StorageContext
    var clock: Time
    var uploads: map<UploadId, Upload>
    var cleanups: map<Identity, Cleanup>
    var assets: map<AssetId, AssetRow>
    var objects: set<ObjectKey>
    var arrived: set<ObjectKey>
    var tickets: set<Ticket>
    var calls: set<Ticket>
    var answers: set<Answer>
    var jobs: set<Job>
    var finished: set<Job>
    var deletions: set<Deletion>
    var acceptances: set<Acceptance>

    function State(): World
      reads this
    {
      World(cfg, storage, clock, uploads, cleanups, assets, objects, arrived, tickets, calls, answers,
            jobs, finished, deletions, acceptances)
    }

    constructor (cfg: Config, storage: StorageContext, clock: Time)
      ensures State() == Start(cfg, storage, clock)
    {
      this.cfg := cfg;
      this.storage := storage;
      this.clock := clock;
      uploads, cleanups, assets := map[], map[], map[];
      objects, arrived, tickets, calls, answers := {}, {}, {}, {}, {};
      jobs, finished, deletions, acceptances := {}, {}, {}, {};
    }
  }
}
