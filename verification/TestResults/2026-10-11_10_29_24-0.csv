TestResult.DisplayName,TestResult.Outcome,TestResult.Duration,TestResult.ResourceCount,RandomSeed
Batching.BufferIsFlatten (correctness),Passed,00:00:01.1336511,2073064,1
Batching.BufferIsFlatten (well-formedness),Passed,00:00:00.3472781,130758,1
