# Traffic analytics pipeline — a Dafny model

This project models the reading-to-analytics pipeline of a traffic analytics
system written in Go. It covers four parts:

- **Ingestion.** The traffic ingestor stores a sensor reading in the
  relational store. It then caches the serialized reading under
  `latest_traffic:<locationId>` with no expiration. Finally it publishes the
  same payload to the durable log. The first error aborts the sequence and
  nothing already written is undone.
- **Validation.** The analytics processor has two reading validators. Each
  reports the first broken rule. The processor's validator checks six rules
  in the order nil, location, vehicle count, average speed, timestamp,
  congestion level. The message handler's validator checks four of them and
  has no timestamp rule.
- **Metric derivation.** One valid reading yields exactly five analytics
  results: congestion index, traffic density, flow rate, travel time and
  delay index. All five share one 5-minute window and carry a fixed unit and
  a fixed confidence. The processor stores them in order and stops at the
  first store that fails.
- **Consumption.** The consumer loop fetches a message, handles it, and bumps
  either the processed or the failed counter. It records a processing time
  and commits the message only when handling succeeded. A commit failure is
  ignored. After any error the loop sleeps one second. It stops when
  cancellation is observed between iterations.

Go's structs that are updated in place are classes: the analytics processor
with its results table, the message handler, the consumer service with its
counters, the ingestor repository with its table and cache, and the ingestion
service with its log. Their methods are proved against pure specification
functions (`Process`, `Handle`, `NextState`, `Run`), and the lemmas are proved
about those functions. Formulas are computed over `real`. Times are
nanoseconds from Go's zero instant, so a zero `time.Time` is `0`.

The files are `models.dfy`, `validation.dfy`, `analytics_processor.dfy`,
`message_handler.dfy`, `analytics_service.dfy`, `ingestor_repository.dfy`
and `ingestor_service.dfy`.

The ingestion path performs no field validation. The ingestor's HTTP handler
only binds the JSON body, and its service passes the reading to the repository
as received. So `IngestService.ProcessTrafficData` has no
precondition on the reading.

## Model

| member | source | states |
|---|---|---|
| Models.CongestionLevelsAreFourDistinct | internal/shared/models/models.go:103-106 | The congestion levels are exactly the four distinct strings low, medium, high, severe. |
| Models.MetricTypesDistinct | internal/shared/models/models.go:133-138 | The five metric types the pipeline derives are pairwise distinct. |
| Models.UnitsDistinct | internal/shared/models/models.go:141-146 | The units index, vehicles/km, vehicles/hour and minutes are four distinct tags. |
| Validation.FirstViolated | cmd/analytics-processor/internal/service/analytics-processor.go:43-79 | Reference meaning of a first-failure-wins rule list: Pass iff no rule is broken; otherwise the reported rule is broken and no earlier rule is. |
| AnalyticsProcessing.ValidateReading | cmd/analytics-processor/internal/service/analytics-processor.go:43-79 | The processor's guard chain equals the first violated rule among nil, location, count, speed, timestamp, congestion level. |
| AnalyticsProcessing.ValidReadingIff | cmd/analytics-processor/internal/service/analytics-processor.go:43-79 | A reading passes iff it is non-nil, has a location, a non-negative count and speed, a non-zero timestamp, and an empty or known congestion level. |
| AnalyticsProcessing.DetermineTrend | cmd/analytics-processor/internal/service/analytics-processor.go:248-255 | The trend is one of the three tags: increasing iff the index is above 0.7, decreasing iff below 0.3, stable iff in [0.3, 0.7]. |
| AnalyticsProcessing.CalculateCongestionIndex | cmd/analytics-processor/internal/service/analytics-processor.go:109-156 | A zero count gives 0 with no trend. Otherwise the value is (min(count/200,1) + (speed>0 ? max(0,(80-speed)/80) : 0))/2 with the matching trend. The value is at most 1, non-negative for a non-negative count, in unit index with confidence 0.95. |
| AnalyticsProcessing.CalculateTrafficDensity | cmd/analytics-processor/internal/service/analytics-processor.go:159-173 | Density equals the vehicle count, in vehicles/km, with confidence 0.90 and no trend. |
| AnalyticsProcessing.CalculateFlowRate | cmd/analytics-processor/internal/service/analytics-processor.go:176-190 | Flow rate is 12 times the count, in vehicles/hour, with confidence 0.85 and no trend. |
| AnalyticsProcessing.CalculateTravelTime | cmd/analytics-processor/internal/service/analytics-processor.go:193-215 | With a positive speed, value times speed is 60. Otherwise the value is 60. It is always positive, in minutes, with confidence 0.80. |
| AnalyticsProcessing.CalculateDelayIndex | cmd/analytics-processor/internal/service/analytics-processor.go:218-245 | The value lies in [0,1]: max(0,(80-speed)/80) for a positive speed, else 0. Unit index, confidence 0.85. |
| AnalyticsProcessing.Analysis | cmd/analytics-processor/internal/service/analytics-processor.go:82-106 | Exactly five results in the order congestion_index, traffic_density, flow_rate, travel_time, delay_index. All have periodStart = timestamp, periodEnd = timestamp + 5 min and the reading's location, and all are well formed. Only the congestion index carries a trend, and only for a non-zero count. |
| AnalyticsProcessing.PerformAnalysis | cmd/analytics-processor/internal/service/analytics-processor.go:82-106 | Building the list by successive appends yields exactly the five results of `Analysis`. |
| AnalyticsProcessing.ZeroCountCongestion | cmd/analytics-processor/internal/service/analytics-processor.go:110-121 | Every reading with zero vehicles gets congestion index 0, confidence 0.95 and no trend. |
| AnalyticsProcessing.NonPositiveSpeed | cmd/analytics-processor/internal/service/analytics-processor.go:197-233 | Every reading with speed <= 0 gets travel time 60 and delay index 0. |
| AnalyticsProcessing.ExampleModerateTraffic | cmd/analytics-processor/internal/service/analytics-processor.go:109-245 | 100 vehicles at 40 km/h give 0.5 (stable), 100, 1200, 1.5 and 0.5. |
| AnalyticsProcessing.ExampleStandstill | cmd/analytics-processor/internal/service/analytics-processor.go:123-143 | 250 vehicles at speed 0 give congestion 0.5, travel time 60 and delay 0. |
| AnalyticsProcessing.ExampleEmptyRoad | cmd/analytics-processor/internal/service/analytics-processor.go:110-121 | 0 vehicles at 80 km/h give congestion exactly 0. |
| AnalyticsProcessing.LeadingSuccesses | cmd/analytics-processor/internal/service/analytics-processor.go:33-37 | The number of store calls that succeed before the first failure: all calls before it succeed, and the one at it fails when it is below the bound. |
| AnalyticsProcessing.Process | cmd/analytics-processor/internal/service/analytics-processor.go:23-40 | An invalid reading returns its rule and writes nothing. A valid one writes a prefix of its five results, every write before the stop succeeded, and the call fails at the first failed store. It returns nil iff all five were written. |
| AnalyticsProcessing.ProcessWritesOnlyValid | cmd/analytics-processor/internal/service/analytics-processor.go:23-40 | Nothing is stored for an invalid reading. The call returns nil iff the reading is valid and all five stores succeed, and then exactly the five results are stored. |
| AnalyticsProcessing.AnalyticsProcessor.StoreAnalyticsResult | cmd/analytics-processor/internal/repository/repository.go:18-20 | A store appends the result to the table iff the database accepts it, and reports which. |
| AnalyticsProcessing.AnalyticsProcessor.ProcessTrafficData | cmd/analytics-processor/internal/service/analytics-processor.go:23-40 | The table grows by exactly what `Process` writes, and the returned error is the one `Process` gives. |
| MessageHandling.ValidateMessage | cmd/analytics-processor/internal/handler/handler.go:77-104 | The handler's guard chain equals the first violated rule among location, count, speed, congestion level. |
| MessageHandling.MessageValidationIgnoresTimestamp | cmd/analytics-processor/internal/handler/handler.go:77-104 | The timestamp never changes the handler's verdict. An empty congestion level is never rejected, and a passing level is empty or one of the four exactly. |
| MessageHandling.ValidatorsAgreeExceptTimestamp | cmd/analytics-processor/internal/handler/handler.go:77-104 | A reading passes the processor's validator iff it passes the handler's and has a non-zero timestamp. A handler failure other than the congestion level is also the processor's failure. |
| MessageHandling.ParseTrafficData | cmd/analytics-processor/internal/handler/handler.go:61-74 | Parsing succeeds iff decoding succeeds and the handler's validation passes, and then it returns the decoded reading. A decode failure or a validation failure returns that error and no reading. |
| MessageHandling.Handle | cmd/analytics-processor/internal/handler/handler.go:32-58 | A parse failure returns that error and reaches no store. Otherwise the processor's writes are the handler's writes, and the handler returns nil iff the processor does. |
| MessageHandling.HandleSucceedsIff | cmd/analytics-processor/internal/handler/handler.go:32-58 | Handling returns nil iff the payload decodes to a reading valid for the processor and all five stores succeed; then exactly its five results are stored. |
| MessageHandling.ZeroTimestampRejectedByProcessor | cmd/analytics-processor/internal/handler/handler.go:36-50 | An otherwise valid reading with a zero timestamp parses, is then rejected by the processor with the timestamp rule, and nothing is written. |
| MessageHandling.MessageHandler.HandleMessage | cmd/analytics-processor/internal/handler/handler.go:32-58 | The results table grows by exactly what `Handle` writes, and the returned error is the one `Handle` gives. |
| AnalyticsLoop.StepErr | cmd/analytics-processor/internal/service/analytics-service.go:57-92 | A failed fetch returns the fetch error. Otherwise the step returns nil iff the handler did, and else it returns the handler's error. A commit failure never makes it fail. |
| AnalyticsLoop.StepWritten | cmd/analytics-processor/internal/service/analytics-service.go:62-69 | A failed fetch writes no results, and one step writes at most five. |
| AnalyticsLoop.NextState | cmd/analytics-processor/internal/service/analytics-service.go:57-92 | A fetched message bumps exactly one counter, processed iff the step succeeded. Only a successful step records a processing time, and it records the measured one. Commit is called once, with that message, iff handling succeeded. The offset advances past that message iff handling succeeded and the log accepted the commit, so never after a failure. A failed fetch changes nothing, and the step never sleeps. |
| AnalyticsLoop.Tick | cmd/analytics-processor/internal/service/analytics-service.go:48-52 | One iteration of the loop sleeps once exactly when its step returned an error, and otherwise leaves the state as the step does. |
| AnalyticsLoop.Run | cmd/analytics-processor/internal/service/analytics-service.go:43-54 | Over any sequence of iterations the counters never decrease, and the processing-time, commit-call and commit logs only grow at their ends. |
| AnalyticsLoop.RunAccounting | cmd/analytics-processor/internal/service/analytics-service.go:40-92 | Over any run, processed + failed grows by the number of fetched messages. Sleeps grow by the number of failed iterations. The commit calls are exactly the successfully handled messages, each with one processing time. |
| AnalyticsLoop.HandledMessageWasValid | cmd/analytics-processor/internal/service/analytics-service.go:69-89 | A message whose step succeeded decodes to a valid reading, and exactly its five results were stored. |
| AnalyticsLoop.CommittedMessagesWereValid | cmd/analytics-processor/internal/service/analytics-service.go:40-92 | Over any run, every message committed decodes to a reading that passes validation, so a poison message is never committed. |
| AnalyticsLoop.RunLogs | cmd/analytics-processor/internal/service/analytics-service.go:40-92 | Over any run, the recorded processing times are exactly the measured times of the successful iterations. The offset advances exactly past the successfully handled messages whose commit the log accepted. |
| AnalyticsLoop.CommittedWereHandled | cmd/analytics-processor/internal/service/analytics-service.go:76-89 | Every message whose commit was accepted during a run was successfully handled in that run, and there are no more commits than handled messages. |
| AnalyticsLoop.CommittedAreValid | cmd/analytics-processor/internal/service/analytics-service.go:76-89 | Every message whose commit was accepted during a run decodes to a reading that passes validation. |
| AnalyticsLoop.OffsetAdvancesOnlyPastValid | cmd/analytics-processor/internal/service/analytics-service.go:40-92 | Over any run, the offset advances only past messages that decode to a valid reading. |
| AnalyticsLoop.AnalyticsService.CommitMessages | cmd/analytics-processor/internal/service/analytics-service.go:86-89 | Every call is recorded, the offset advances only when the log accepts the commit, and the counters are untouched. |
| AnalyticsLoop.AnalyticsService.ProcessNextMessage | cmd/analytics-processor/internal/service/analytics-service.go:57-92 | The new counters, latencies and commits are `NextState` of the old ones, the results table grows by `StepWritten`, and the error is `StepErr`. |
| AnalyticsLoop.AnalyticsService.Iterate | cmd/analytics-processor/internal/service/analytics-service.go:48-52 | One loop iteration is one step followed by one sleep exactly when the step returned an error. |
| AnalyticsLoop.AnalyticsService.Start | cmd/analytics-processor/internal/service/analytics-service.go:40-55 | Running until cancellation leaves the state `Run` gives for the iterations performed, writes `RunWritten`, and returns nil. |
| IngestorRepository.CacheKey | cmd/traffic-ingestor/internal/repository/repository.go:28 | The key is "latest_traffic:" followed by exactly the location id. |
| IngestorRepository.CacheKeyInjective | cmd/traffic-ingestor/internal/repository/repository.go:28 | Two locations share a cache key iff they are the same location. |
| IngestorRepository.TrafficRepository.Create | cmd/traffic-ingestor/internal/repository/repository.go:23-25 | An insert appends the reading iff the database accepts it. |
| IngestorRepository.TrafficRepository.SetCache | cmd/traffic-ingestor/internal/repository/repository.go:33 | A cache write sets exactly the given key, with the given value and expiration, iff the cache accepts it. |
| IngestorRepository.TrafficRepository.StoreTrafficData | cmd/traffic-ingestor/internal/repository/repository.go:21-34 | The database is written first, and a failed insert leaves the cache untouched. A later encode or cache failure keeps the row. It returns nil iff both writes succeed. Success overwrites exactly the location's key with the serialized reading and expiration 0, and every other key is unchanged. |
| IngestorService.IngestService.WriteMessages | cmd/traffic-ingestor/internal/service/service.go:35-37 | One publish appends the payload to the log iff the broker accepts it. |
| IngestorService.IngestService.ProcessTrafficData | cmd/traffic-ingestor/internal/service/service.go:23-45 | The reading is stored as received. A store failure returns the repository's own error: database, encoding or cache failure, checked in that order. Nothing is published after a store failure. A publish happens only after a successful store and sends the serialized reading. A publish failure keeps the row and the cache entry. It returns nil iff store and publish both succeed, and the published payload then equals the cached value. |

## Left out

- JSON encoding and decoding are function parameters (`marshal`, `unmarshal`). They are deterministic, and nothing else is assumed about them.
- The relational store, the cache and the log are reduced to success-or-failure outcomes passed to each call. A failed call is taken to change nothing. Connection pools, GORM and the client libraries are outside the model.
- Column values the database generates (ID, UUID, created/updated times, and an `autoCreateTime` timestamp when the reading's is zero) are not modelled. Neither is the ORM writing them back into the reading before it is serialized. The cached and published payload is the encoding of the reading as received.
- `AnalysisTimestamp` comes from the wall clock and is left out of `AnalyticsResult`. The other result columns the pipeline never sets are left out too: sample size, aggregation method, anomaly flag and metadata.
- Float64 arithmetic and the int-to-float conversion are modelled as exact rationals, so there is no IEEE rounding, NaN or infinity. Go's 64-bit `int` vehicle count is unbounded here.
- The loop's time (processing timeout, `time.Since`, `time.Sleep`) is modelled as inputs. The fetch deadline becomes the fetch outcome, the measured duration becomes `latency`, and each one-second sleep becomes an increment of `sleeps`.
- Logging is left out.
- Cancellation is modelled by the number of iterations that run before the between-iteration check sees it. A `Start` that is never cancelled does not terminate and is not modelled.
- kafka-go's redelivery of uncommitted messages and its asynchronous commit interval are not modelled. Each fetch returns whatever the environment supplies.
- Prometheus is modelled as the two counters and the latency list of `AnalyticsService`.
- The handler is given a concrete `AnalyticsProcessor` rather than the one-method `AnalyticsProcessor` interface.
- Concurrent ingestion requests are not modelled; each call is sequential.
- The API gateway, the ingestor's HTTP handler, process start-up and configuration are not part of this model. `BatchSize` has no effect on the loop.
- `IngestService.ProcessTrafficData`: the source's own encoding-failure branch (service.go:30-33) is kept but can never be taken. The repository has already encoded the same reading with the same encoder, so an encoding failure surfaces as the repository's error after the insert.
